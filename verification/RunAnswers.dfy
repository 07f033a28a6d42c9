/**
 What one pass of the attempt loop answers, as a table over the script: which events it adds,
 what it tells the shared breaker, and what it leaves to the next pass.
 */
module RunAnswers {
  import opened Wrappers
  import opened RunTypes
  import opened RunLog
  import opened RunSpec
  import opened RunConversations
  import opened RunReading
  import CB = CircuitBreaker
  import Retry = RetryPolicy
  import Usage = UsageTracker
  import Reasoning = ReasoningSummary
  import opened StreamRuntime

  // ---------- The attempt of a pass ----------

  /** The answer of the circuit breaker, when the run has one. */
  ghost function Circuit(cfg: Config, pass: Pass, s: State): Option<CB.Snapshot> {
    if cfg.circuit.None? then None
    else Some(CB.SnapshotOf(cfg.circuit.value, s.breaker + Asking(cfg, pass, s), s.route.active.providerId))
  }

  /** What the breaker hears before an attempt. */
  function Asking(cfg: Config, pass: Pass, s: State): seq<CB.Call> {
    if cfg.circuit.None? then []
    else pass.othersBefore + [CB.BeforeAttempt(s.route.active.providerId, pass.askedAt)]
  }

  /** The primary's provider is disabled, and it is the one to be called. */
  predicate SwitchedOff(cfg: Config, s: State) {
    cfg.providerDisabled && s.route.active.providerId == cfg.primary.providerId
  }

  ghost predicate Attempted(cfg: Config, pass: Pass, s: State) {
    && !SwitchedOff(cfg, s)
    && !(Circuit(cfg, pass, s).Some? && Circuit(cfg, pass, s).value.state == CB.Open)
  }

  /** The outcome the first of these signals decides. */
  function Verdict(signals: seq<Signal>): Option<Outcome> {
    if signals == [] then None
    else if signals[0].ParentAbort? then Some(Cancelled) else Some(TimedOut)
  }

  /** What is decided before the stream is read. */
  function Born(pass: Pass, s: State): Option<Outcome> {
    if s.aborted || ParentAbort in pass.before then Some(Cancelled) else Verdict(pass.resolution.signals)
  }

  predicate Streams(pass: Pass, s: State) {
    pass.resolution.answer.Resolved? && Born(pass, s).None?
  }

  /** The pulls the attempt reads on from. */
  function ReadBy(pass: Pass, s: State): seq<Pull> {
    if Streams(pass, s) then Read(pass) else []
  }

  function HeardBy(pass: Pass, s: State): seq<Chunk> {
    ChunksOf(ReadBy(pass, s))
  }

  /** The attempt's call, once its parameters are resolved: the conversation as it stands, with those parameters. */
  function CallBy(pass: Pass, s: State): seq<StreamCall> {
    match pass.resolution.answer
    case Refused(_) => []
    case Resolved(effective, _, _) => [StreamCall(s.route.active, s.reply.messages, effective)]
  }

  function Retains(pass: Pass): bool {
    pass.resolution.answer.Resolved? && pass.resolution.answer.retainSummary
  }

  /** The signals around the pull that ends the reading; those before it keep it from being asked. */
  function SignalsAt(pull: Pull): seq<Signal> {
    if pull.before != [] then pull.before else SignalsOf(pull.answer)
  }

  function OutcomeAtEnd(pass: Pass, s: State): Option<Outcome> {
    if Streams(pass, s) then Verdict(SignalsAt(LastPull(pass))) else Born(pass, s)
  }

  /** How an attempt ends. */
  datatype End =
    | Completes
    | CutOff
    | Breaks(error: ProviderError)
    | AsksForTools(toolCall: ToolCall, toolCalls: Option<seq<ToolCall>>)

  function EndAt(pull: Pull): End
    requires !ReadsOn(pull)
  {
    if pull.before != [] then Breaks(Unclassified)
    else
      match pull.answer
      case Ends(_) => Completes
      case Fails(error, _) => Breaks(error)
      case Interrupted(_, _) => Breaks(Unclassified)
      case Yields(chunk, late) =>
        if late == [] then AsksForTools(chunk.toolCall, chunk.toolCalls)
        else if late[0].ParentAbort? then CutOff
        else Breaks(Classified("provider_timeout", None))
  }

  function EndOf(pass: Pass, s: State): End {
    match pass.resolution.answer
    case Refused(error) => Breaks(error)
    case Resolved(_, _, _) => if Born(pass, s).Some? then Breaks(Unclassified) else EndAt(LastPull(pass))
  }

  /** All signals that can reach the parent signal's view before the attempt ends. */
  function AbortedBy(pass: Pass, s: State): bool {
    || s.aborted || ParentAbort in pass.before || ParentAbort in pass.resolution.signals
    || (pass.resolution.answer.Resolved? &&
        if Born(pass, s).Some? then ParentAbort in PullAt(pass, 0).before else ParentAbort in SignalsAt(LastPull(pass)))
  }

  function UsageAfter(pass: Pass, s: State): Usage.Usages {
    Usage.ObservedAll(s.usage, s.route.active, ReportsIn(HeardBy(pass, s), s.route.active.adapterKind))
  }

  function ReplyAfter(pass: Pass, s: State): Reply {
    var chunks, r := HeardBy(pass, s), s.reply;
    Reply(r.content + TokenText(chunks), r.current + TokenText(chunks), r.emitted || TokenTexts(chunks) != [],
          r.messages, r.toolCalls)
  }

  /** What the attempt has shown while it read its stream. */
  function ShownBy(pass: Pass, s: State): seq<Body> {
    BodiesFor(HeardBy(pass, s), Retains(pass))
  }

  /** The state at the end of the attempt's reading, before anything is made of that end. */
  ghost predicate Tried(cfg: Config, pass: Pass, s: State, s': State, a': Attempt) {
    && Bodies(s'.log) == Bodies(s.log) + ShownBy(pass, s)
    && Chunks(s'.log) == Chunks(s.log) + HeardBy(pass, s) && Calls(s'.log) == Calls(s.log) + CallBy(pass, s)
    && s'.reply == ReplyAfter(pass, s) && s'.usage == UsageAfter(pass, s)
    && s'.route == s.route && s'.breaker == s.breaker + Asking(cfg, pass, s) && s'.aborted == AbortedBy(pass, s)
    && a' == Attempt(OutcomeAtEnd(pass, s), SummaryOf(ReadBy(pass, s), Retains(pass)), Reasons(HeardBy(pass, s)),
                     Retains(pass))
  }

  // ---------- Up to the attempt's end ----------

  lemma AbortedAlike(s: State, first: bool, second: bool)
    ensures var s' := Abort(Abort(s, first), second);
      && s' == s.(log := s'.log, aborted := s.aborted || first || second)
      && Bodies(s'.log) == Bodies(s.log) && Chunks(s'.log) == Chunks(s.log) && Calls(s'.log) == Calls(s.log)
  {
    AbortStep(s, first);
    AbortStep(Abort(s, first), second);
  }

  /** The pull that ends the reading, in an attempt that has heard no signal. */
  lemma LastPullTells(cfg: Config, pass: Pass, s: State, a: Attempt)
    returns (s': State, a': Attempt)
    requires a.outcome.None?
    ensures var pull := LastPull(pass);
      && s' == s.(log := s'.log, aborted := s.aborted || ParentAbort in SignalsAt(pull))
      && Bodies(s'.log) == Bodies(s.log) && Chunks(s'.log) == Chunks(s.log) && Calls(s'.log) == Calls(s.log)
      && a' == a.(outcome := Verdict(SignalsAt(pull)))
      && OnPull(cfg, pass, s, a, pull) ==
         match EndAt(pull)
         case Completes => Drained(s', a')
         case CutOff => Returned(Cancel(Settle(s', a', false, pass.settledAt)))
         case Breaks(error) => Threw(s', a', error)
         case AsksForTools(call, calls) =>
           OnToolCalls(cfg, pass, Note(s', Handled(ToolRequest(call, calls))), a', RequestedCalls(call, calls))
  {
    hide Settle, Cancel, OnToolCalls, Note, Abort, Bodies, Chunks, Calls;
    var pull := LastPull(pass);
    AbortedAlike(s, ParentAbort in pull.before, pull.before == [] && ParentAbort in SignalsOf(pull.answer));
    var received := Receive(s, a, pull);
    s', a' := received.0, received.1;
  }

  /** The first pull of an attempt whose outcome is already decided. */
  lemma BornDecided(cfg: Config, pass: Pass, s: State, a: Attempt) returns (s': State)
    requires a.outcome.Some?
    ensures s' == s.(log := s'.log, aborted := s.aborted || ParentAbort in PullAt(pass, 0).before)
    ensures Bodies(s'.log) == Bodies(s.log) && Chunks(s'.log) == Chunks(s.log) && Calls(s'.log) == Calls(s.log)
    ensures Consume(cfg, pass, s, a, 0) == Threw(s', a, Unclassified)
  {
    hide Settle, Cancel, OnChunk, Note, Abort, Bodies, Chunks, Calls;
    var pull := PullAt(pass, 0);
    AbortedAlike(s, ParentAbort in pull.before, false);
    NeverAborts(Abort(s, ParentAbort in pull.before));
    s' := Receive(s, a, pull).0;
    assert OnPull(cfg, pass, s, a, pull) == Threw(s', a, Unclassified);
  }

  lemma NeverAborts(s: State)
    ensures Abort(s, false) == s
  {
  }

  /** The circuit breaker is asked, and the attempt begins. */
  lemma Attempts(cfg: Config, pass: Pass, s: State) returns (s2: State)
    requires Attempted(cfg, pass, s)
    ensures s2 == s.(log := s2.log, breaker := s.breaker + Asking(cfg, pass, s),
                     aborted := s.aborted || ParentAbort in pass.before)
    ensures Bodies(s2.log) == Bodies(s.log) && Chunks(s2.log) == Chunks(s.log) && Calls(s2.log) == Calls(s.log)
    ensures TakeTurn(cfg, pass, s) == Call(cfg, pass, s2)
  {
    hide Call, Abort, Note, Bodies, Chunks, Calls, CB.SnapshotOf;
    var s1 := Abort(s, ParentAbort in pass.before);
    AbortStep(s, ParentAbort in pass.before);
    var p := s1.route.active.providerId;
    s2 := AskCircuit(cfg, pass, s1).0;
    if cfg.circuit.None? {
      NoteStep(s1, Gate(p, None));
      assert s.breaker + [] == s.breaker;
    } else {
      var history := s1.breaker + pass.othersBefore + [CB.BeforeAttempt(p, pass.askedAt)];
      assert history == s.breaker + Asking(cfg, pass, s);
      NoteStep(s1.(breaker := history), Gate(p, Circuit(cfg, pass, s)));
    }
    assert Chunks(s.log) + [] == Chunks(s.log);
  }

  /** Nothing has happened but the attempt's call. */
  ghost predicate Called(pass: Pass, s: State, s': State) {
    && Bodies(s'.log) == Bodies(s.log) && Chunks(s'.log) == Chunks(s.log)
    && Calls(s'.log) == Calls(s.log) + CallBy(pass, s)
  }

  /** An attempt that reads nothing. */
  lemma TriedNothing(cfg: Config, pass: Pass, s: State, s': State, a': Attempt)
    requires !Streams(pass, s) && Called(pass, s, s')
    requires s' == s.(log := s'.log, breaker := s.breaker + Asking(cfg, pass, s), aborted := AbortedBy(pass, s))
    requires a' == Attempt(OutcomeAtEnd(pass, s), Reasoning.NO_SUMMARY, false, Retains(pass))
    ensures Tried(cfg, pass, s, s', a')
  {
    hide Bodies, Chunks, Calls, AbortedBy, OutcomeAtEnd, Streams, Asking, Retains;
    NothingRead(s, Retains(pass));
    assert HeardBy(pass, s) == [];
  }

  /** An attempt that has read its stream, up to the pull that ends the reading. */
  lemma TriedReading(cfg: Config, pass: Pass, s: State, s1: State, s2: State, a2: Attempt, s': State, a': Attempt)
    requires Streams(pass, s) && Called(pass, s, s1)
    requires s1 == s.(log := s1.log, breaker := s.breaker + Asking(cfg, pass, s), aborted := s1.aborted)
    requires HasRead(s1, Retains(pass), Read(pass), s2, a2)
    requires Alike(s'.log, s2.log)
    requires s' == s2.(log := s'.log, aborted := AbortedBy(pass, s))
    requires a' == a2.(outcome := OutcomeAtEnd(pass, s))
    ensures Tried(cfg, pass, s, s', a')
  {
    hide Bodies, Chunks, Calls, AbortedBy, OutcomeAtEnd, Asking, Retains, Read, ChunksOf, BodiesFor, TokenText,
      TokenTexts, ReportsIn, Reasons, SummaryOf, Usage.ObservedAll, Born;
  }

  /** An attempt comes to its end having shown and used exactly what its script says. */
  lemma AttemptEnds(cfg: Config, pass: Pass, s: State) returns (s': State, a': Attempt)
    requires Attempted(cfg, pass, s)
    ensures Tried(cfg, pass, s, s', a')
    ensures TakeTurn(cfg, pass, s) ==
            match EndOf(pass, s)
            case Completes => Finished(Complete(cfg, pass, s', a'))
            case CutOff => Finished(Cancel(Settle(s', a', false, pass.settledAt)))
            case Breaks(error) => Catch(cfg, pass, s', a', error)
            case AsksForTools(call, calls) =>
              Consumed(cfg, pass, OnToolCalls(cfg, pass, Note(s', Handled(ToolRequest(call, calls))), a',
                                              RequestedCalls(call, calls)))
  {
    hide Complete, Cancel, Settle, Catch, OnToolCalls, Note, Abort, Bodies, Chunks, Calls, TakeTurn, ChunksOf,
      BodiesFor, TokenText, TokenTexts, ReportsIn, Reasons, SummaryOf, Usage.ObservedAll, CB.SnapshotOf, Consume,
      Tried, OnPull;
    var s2 := Attempts(cfg, pass, s);
    var s3 := Abort(s2, ParentAbort in pass.resolution.signals);
    AbortStep(s2, ParentAbort in pass.resolution.signals);
    var born := Born(pass, s);
    match pass.resolution.answer
    case Refused(error) =>
      s', a' := s3, Attempt(born, Reasoning.NO_SUMMARY, false, false);
      assert Calls(s.log) + [] == Calls(s.log);
      TriedNothing(cfg, pass, s, s', a');
    case Resolved(effective, _, retain) =>
      var e := Stream(s3.route.active, s3.reply.messages, effective);
      var s4 := Note(s3, e);
      NoteStep(s3, e);
      assert Chunks(s3.log) + [] == Chunks(s3.log);
      if born.Some? {
        a' := Attempt(born, Reasoning.NO_SUMMARY, false, retain);
        s' := BornDecided(cfg, pass, s4, a');
        TriedNothing(cfg, pass, s, s', a');
      } else {
        var s5, a5 := ReadsToTheLast(cfg, pass, s4, retain);
        s', a' := LastPullTells(cfg, pass, s5, a5);
        TriedReading(cfg, pass, s, s4, s5, a5, s', a');
      }
  }

  // ---------- Settling, as events ----------

  function DeltasOf(texts: seq<string>): seq<Body> {
    if texts == [] then [] else DeltasOf(texts[..|texts| - 1]) + [SummaryDelta(texts[|texts| - 1])]
  }

  /** A buffered summary is shown whole and counted, if it is kept and fits; otherwise only its metadata is. */
  function SettledBodies(summary: Reasoning.Summary, keep: bool, tokens: Option<int>, now: int): seq<Body> {
    if summary.startedAt.None? then []
    else
      var metadata := Reasoning.MetadataAt(summary.startedAt.value, tokens, now);
      var count := Reasoning.Characters(summary.texts);
      if keep && |summary.texts| <= Reasoning.MAX_SUMMARY_DELTAS && count <= Reasoning.MAX_SUMMARY_CHARACTERS
      then DeltasOf(summary.texts) + [SummaryCompleted(Some(count), metadata)]
      else [SummaryCompleted(None, metadata)]
  }

  /** The same state but for the history, which has these more events and no more chunks. */
  ghost predicate OnlyShows(s: State, bodies: seq<Body>, s': State) {
    && s' == s.(sequence := s'.sequence, log := s'.log)
    && Bodies(s'.log) == Bodies(s.log) + bodies && Chunks(s'.log) == Chunks(s.log) && Calls(s'.log) == Calls(s.log)
  }

  lemma ShowingMore(s: State, bodies: seq<Body>, s': State, body: Body)
    requires OnlyShows(s, bodies, s')
    ensures OnlyShows(s, bodies + [body], Emit(s', body))
  {
    hide Emit, Bodies, Chunks, Calls;
    EmitStep(s', body);
  }

  lemma ShowingNothing(s: State)
    ensures OnlyShows(s, [], s)
  {
    assert Bodies(s.log) + [] == Bodies(s.log);
  }

  lemma {:induction false} ShowsTexts(s: State, texts: seq<string>)
    ensures OnlyShows(s, DeltasOf(texts), EmitSummary(s, Reasoning.Texts(texts)))
  {
    hide OnlyShows, Emit;
    var events := Reasoning.Texts(texts);
    if texts == [] {
      ShowingNothing(s);
    } else {
      var init, last := texts[..|texts| - 1], texts[|texts| - 1];
      ShowsTexts(s, init);
      ShowingMore(s, DeltasOf(init), EmitSummary(s, Reasoning.Texts(init)), SummaryDelta(last));
      assert events[..|events| - 1] == Reasoning.Texts(init) && events[|events| - 1] == Reasoning.SummaryText(last);
    }
  }

  lemma SettleTells(s: State, a: Attempt, keep: bool, now: int)
    requires !a.summary.finished
    ensures OnlyShows(s, SettledBodies(a.summary, keep, Usage.CurrentReasoning(s.usage), now), Settle(s, a, keep, now))
  {
    hide OnlyShows, Emit, Reasoning.MetadataAt, DeltasOf, Reasoning.Characters;
    ShowingNothing(s);
    if a.summary.startedAt.Some? {
      var texts, tokens := a.summary.texts, Usage.CurrentReasoning(s.usage);
      var metadata := Reasoning.MetadataAt(a.summary.startedAt.value, tokens, now);
      var events := Reasoning.FinishEvents(a.summary, keep, tokens, now);
      if keep && Reasoning.Fits(texts) {
        assert events[..|events| - 1] == Reasoning.Texts(texts);
        ShowsTexts(s, texts);
        ShowingMore(s, DeltasOf(texts), EmitSummary(s, Reasoning.Texts(texts)),
                    SummaryCompleted(Some(Reasoning.Characters(texts)), metadata));
      } else {
        assert events == [Reasoning.SummaryDiscarded(metadata)] && events[..|events| - 1] == [];
        assert EmitSummary(s, events[..|events| - 1]) == s;
        ShowingMore(s, [], s, SummaryCompleted(None, metadata));
        assert [] + [SummaryCompleted(None, metadata)] == [SummaryCompleted(None, metadata)];
      }
    }
  }

  lemma ClosingTells(s: State, body: Body)
    ensures OnlyShows(s.(usage := Usage.Finished(s.usage)), [body], Close(s, body))
  {
    hide Emit, Bodies, Chunks, Calls, Usage.Finished;
    EmitStep(s.(usage := Usage.Finished(s.usage)), body);
  }

  // ---------- The table: what a pass answers ----------

  function SummaryBy(pass: Pass, s: State): Reasoning.Summary {
    SummaryOf(ReadBy(pass, s), Retains(pass))
  }

  function SettledBy(pass: Pass, s: State, keep: bool): seq<Body> {
    SettledBodies(SummaryBy(pass, s), keep, Usage.CurrentReasoning(UsageAfter(pass, s)), pass.settledAt)
  }

  function EvidenceAfter(pass: Pass, s: State): Usage.Evidence {
    Usage.EvidenceOf(UsageAfter(pass, s))
  }

  /** The turn adds these events and no chunk but those heard, and the breaker hears these calls. */
  ghost predicate Answers(cfg: Config, pass: Pass, s: State, turn: Turn, bodies: seq<Body>, telling: seq<CB.Call>) {
    && Bodies(turn.state.log) == Bodies(s.log) + ShownBy(pass, s) + bodies
    && Chunks(turn.state.log) == Chunks(s.log) + HeardBy(pass, s)
    && Calls(turn.state.log) == Calls(s.log) + CallBy(pass, s)
    && turn.state.breaker == s.breaker + Asking(cfg, pass, s) + telling
    && turn.state.reply == ReplyAfter(pass, s)
  }

  function Telling(cfg: Config, pass: Pass, call: CB.Call): seq<CB.Call> {
    if cfg.circuit.None? then [] else pass.othersAfter + [call]
  }

  lemma Answering(cfg: Config, pass: Pass, s: State, s1: State, a1: Attempt, turn: Turn, bodies: seq<Body>,
                  telling: seq<CB.Call>)
    requires Tried(cfg, pass, s, s1, a1)
    requires Bodies(turn.state.log) == Bodies(s1.log) + bodies
    requires Chunks(turn.state.log) == Chunks(s1.log) && Calls(turn.state.log) == Calls(s1.log)
    requires turn.state.breaker == s1.breaker + telling && turn.state.reply == s1.reply
    ensures Answers(cfg, pass, s, turn, bodies, telling)
  {
    hide Bodies, Chunks, Calls, CallBy, ShownBy, HeardBy, Asking, ReplyAfter, UsageAfter, AbortedBy, OutcomeAtEnd;
  }

  /**
   A stream that ends completes the run: the summary is kept if it fits, the provider's success is
   recorded, the message is all text of the run, and the run reports its retries and its fallback.
   */
  lemma CompletedPass(cfg: Config, pass: Pass, s: State)
    requires Attempted(cfg, pass, s) && EndOf(pass, s).Completes?
    ensures var turn := TakeTurn(cfg, pass, s);
      && turn.Finished? && turn.state.route == s.route && turn.state.usage == Usage.Finished(UsageAfter(pass, s))
      && Answers(cfg, pass, s, turn,
                 SettledBy(pass, s, true)
                 + [MessageCompleted(s.reply.content + TokenText(HeardBy(pass, s))),
                    RunCompleted(EvidenceAfter(pass, s), s.route.retryAttempts, s.route.snapshot)],
                 Telling(cfg, pass, CB.RecordSuccess(s.route.active.providerId)))
  {
    hide TakeTurn, Bodies, Chunks, Calls, Answers, HeardBy, ShownBy, AbortedBy, OutcomeAtEnd, Asking, UsageAfter,
      Attempted, EndOf, SettledBodies, Settle, Emit, Note, Usage.Finished, Usage.EvidenceOf;
    var s1, a1 := AttemptEnds(cfg, pass, s);
    var turn := TakeTurn(cfg, pass, s);
    SummaryIsOpen(ReadBy(pass, s), Retains(pass));
    CompletingTells(cfg, pass, s1, a1);
    Answering(cfg, pass, s, s1, a1, turn,
              SettledBy(pass, s, true)
              + [MessageCompleted(s.reply.content + TokenText(HeardBy(pass, s))),
                 RunCompleted(EvidenceAfter(pass, s), s.route.retryAttempts, s.route.snapshot)],
              Telling(cfg, pass, CB.RecordSuccess(s.route.active.providerId)));
  }

  lemma CompletingTells(cfg: Config, pass: Pass, s: State, a: Attempt)
    requires !a.summary.finished
    ensures var s' := Complete(cfg, pass, s, a);
      && s'.route == s.route && s'.reply == s.reply && s'.usage == Usage.Finished(s.usage)
      && s'.breaker == s.breaker + Telling(cfg, pass, CB.RecordSuccess(s.route.active.providerId))
      && Bodies(s'.log) == Bodies(s.log)
         + (SettledBodies(a.summary, true, Usage.CurrentReasoning(s.usage), pass.settledAt)
            + [MessageCompleted(s.reply.content),
               RunCompleted(Usage.EvidenceOf(s.usage), s.route.retryAttempts, s.route.snapshot)])
      && Chunks(s'.log) == Chunks(s.log) && Calls(s'.log) == Calls(s.log)
  {
    hide Bodies, Chunks, Calls, SettledBodies, Settle, Emit, Note, Close, Usage.Finished, Usage.EvidenceOf;
    var settled := Settle(s, a, true, pass.settledAt);
    SettleTells(s, a, true, pass.settledAt);
    var p, told := s.route.active.providerId, ReportSuccess(cfg, pass, settled);
    if cfg.circuit.None? {
      assert s.breaker + [] == s.breaker;
    } else {
      var history := s.breaker + pass.othersAfter + [CB.RecordSuccess(p)];
      assert history == s.breaker + (pass.othersAfter + [CB.RecordSuccess(p)]);
      NoteStep(settled.(breaker := history), HealthSuccess(p));
      assert Chunks(s.log) + [] == Chunks(s.log);
    }
    EmitStep(told, MessageCompleted(told.reply.content));
    var completed := Emit(told, MessageCompleted(told.reply.content));
    ClosingTells(completed, RunCompleted(Usage.EvidenceOf(s.usage), s.route.retryAttempts, s.route.snapshot));
  }

  // ---------- An attempt that does not complete ----------

  /** The outcome once a failed attempt's summary is settled: signals may still arrive meanwhile. */
  function FinalOutcome(pass: Pass, s: State): Option<Outcome> {
    if OutcomeAtEnd(pass, s).Some? || SummaryBy(pass, s).startedAt.None? then OutcomeAtEnd(pass, s)
    else Verdict(pass.settling)
  }

  /** The parent signal has aborted by the time the failed attempt is settled. */
  function AbortedAfter(pass: Pass, s: State): bool {
    AbortedBy(pass, s) || (SummaryBy(pass, s).startedAt.Some? && ParentAbort in pass.settling)
  }

  /** What a failed attempt comes to when it is settled. */
  lemma SettlingFailedTells(pass: Pass, s: State, a: Attempt)
    requires !a.summary.finished
    ensures var (s', outcome) := SettleFailed(pass, s, a); var waits := a.summary.startedAt.Some?;
      && s' == s.(sequence := s'.sequence, log := s'.log,
                  aborted := s.aborted || (waits && ParentAbort in pass.settling))
      && Bodies(s'.log) == Bodies(s.log)
         + SettledBodies(a.summary, false, Usage.CurrentReasoning(s.usage), pass.settledAt)
      && Chunks(s'.log) == Chunks(s.log) && Calls(s'.log) == Calls(s.log)
      && outcome == if a.outcome.Some? || !waits then a.outcome else Verdict(pass.settling)
  {
    hide Bodies, Chunks, Calls, SettledBodies, Settle, Abort;
    var settled := Settle(s, a, false, pass.settledAt);
    SettleTells(s, a, false, pass.settledAt);
    AbortStep(settled, ParentAbort in pass.settling);
    if a.summary.startedAt.None? {
      NothingSettles(s, a, pass.settledAt);
    }
  }

  lemma NothingSettles(s: State, a: Attempt, now: int)
    requires a.summary.startedAt.None?
    ensures Settle(s, a, false, now) == s
  {
  }

  lemma CancellingTells(s: State)
    ensures var s' := Cancel(s);
      && s' == s.(sequence := s'.sequence, log := s'.log, usage := Usage.Finished(s.usage))
      && Bodies(s'.log) == Bodies(s.log) + [RunCancelled(Usage.EvidenceOf(s.usage))]
      && Chunks(s'.log) == Chunks(s.log) && Calls(s'.log) == Calls(s.log)
  {
    hide Bodies, Chunks, Calls, Close, Usage.Finished, Usage.EvidenceOf;
    ClosingTells(s, RunCancelled(Usage.EvidenceOf(s.usage)));
  }

  /** An attempt whose first signal is the parent's cancels the run; a buffered summary is discarded. */
  lemma CancelledPass(cfg: Config, pass: Pass, s: State)
    requires Attempted(cfg, pass, s)
    requires EndOf(pass, s).CutOff? || (EndOf(pass, s).Breaks? && FinalOutcome(pass, s) == Some(Cancelled))
    ensures var turn := TakeTurn(cfg, pass, s);
      && turn.Finished? && turn.state.route == s.route && turn.state.usage == Usage.Finished(UsageAfter(pass, s))
      && Answers(cfg, pass, s, turn, SettledBy(pass, s, false) + [RunCancelled(EvidenceAfter(pass, s))], [])
  {
    hide TakeTurn, Bodies, Chunks, Calls, Answers, HeardBy, ShownBy, AbortedBy, OutcomeAtEnd, Asking, UsageAfter,
      Attempted, EndOf, SettledBodies, Settle, SettleFailed, Cancel, ReplyAfter, Usage.Finished, Usage.EvidenceOf;
    var s1, a1 := AttemptEnds(cfg, pass, s);
    SummaryIsOpen(ReadBy(pass, s), Retains(pass));
    SettleTells(s1, a1, false, pass.settledAt);
    SettlingFailedTells(pass, s1, a1);
    CancellingTells(Settle(s1, a1, false, pass.settledAt));
    CancellingTells(SettleFailed(pass, s1, a1).0);
    assert s1.breaker + [] == s1.breaker;
    Answering(cfg, pass, s, s1, a1, TakeTurn(cfg, pass, s),
              SettledBy(pass, s, false) + [RunCancelled(EvidenceAfter(pass, s))], []);
  }

  /** The attempt failed and the run was not cancelled. */
  predicate Failed(pass: Pass, s: State) {
    EndOf(pass, s).Breaks? && FinalOutcome(pass, s) != Some(Cancelled)
  }

  /** A timed-out attempt fails as a timeout, whatever was thrown; otherwise what was thrown tells. */
  function FailureBy(pass: Pass, s: State): (string, Option<string>)
    requires EndOf(pass, s).Breaks?
  {
    if FinalOutcome(pass, s) == Some(TimedOut) then ("provider_timeout", Some("timeout"))
    else
      match EndOf(pass, s).error
      case Classified(code, kind) => (code, kind)
      case NamedAbort => ("provider_stream_aborted", Some("AbortError"))
      case Unclassified => ("provider_stream_error", None)
  }

  /** The breaker records the failure, unless it is of the client's making: then it is only looked at. */
  function FailureCall(pass: Pass, s: State): CB.Call
    requires EndOf(pass, s).Breaks?
  {
    var kind, p := FailureBy(pass, s).1, s.route.active.providerId;
    if Retry.CountsAgainstHealth(kind) then CB.RecordFailure(p, pass.reportedAt) else CB.Inspect(p)
  }

  function UsedRetries(route: Route, provider: string): nat {
    if provider in route.retries then route.retries[provider] else 0
  }

  /** The run has said nothing, the failure may be retried, and the provider has retries left. */
  predicate MayRetry(cfg: Config, pass: Pass, s: State)
    requires EndOf(pass, s).Breaks?
  {
    var p := s.route.active.providerId;
    && !ReplyAfter(pass, s).emitted && Retry.IsRetryable(FailureBy(pass, s).0)
    && UsedRetries(s.route, p) < cfg.Policy().maxRetries
  }

  /** The failed attempt settled, told to the breaker and closed. */
  lemma FailedAttempt(cfg: Config, pass: Pass, s: State) returns (s2: State)
    requires Attempted(cfg, pass, s) && Failed(pass, s)
    ensures Bodies(s2.log) == Bodies(s.log) + ShownBy(pass, s) + SettledBy(pass, s, false)
    ensures Chunks(s2.log) == Chunks(s.log) + HeardBy(pass, s)
    ensures Calls(s2.log) == Calls(s.log) + CallBy(pass, s)
    ensures s2.breaker == s.breaker + Asking(cfg, pass, s) + Telling(cfg, pass, FailureCall(pass, s))
    ensures s2.reply == ReplyAfter(pass, s) && s2.usage == Usage.Finished(UsageAfter(pass, s)) && s2.route == s.route
    ensures s2.aborted == AbortedAfter(pass, s)
    ensures TakeTurn(cfg, pass, s) ==
            Decide(cfg, pass, s2, Reasons(HeardBy(pass, s)), FailureBy(pass, s).0, FailureBy(pass, s).1,
                   CircuitAfter(cfg, pass, s))
  {
    hide TakeTurn, Bodies, Chunks, Calls, HeardBy, ShownBy, AbortedBy, OutcomeAtEnd, Asking, UsageAfter, Attempted,
      EndOf, SettledBodies, SettleFailed, ReportFailure, Decide, ReplyAfter, Usage.Finished;
    var s0, a := AttemptEnds(cfg, pass, s);
    SummaryIsOpen(ReadBy(pass, s), Retains(pass));
    SettlingFailedTells(pass, s0, a);
    var s1, outcome := SettleFailed(pass, s0, a).0, SettleFailed(pass, s0, a).1;
    var kind := FailureBy(pass, s).1;
    assert FailureCode(outcome, EndOf(pass, s).error) == FailureBy(pass, s);
    ReportTells(cfg, pass, s1, kind);
    var told := ReportFailure(cfg, pass, s1, kind).0;
    s2 := told.(usage := Usage.Finished(told.usage));
    assert s1.breaker == s.breaker + Asking(cfg, pass, s);
  }

  /** What the breaker says of the provider when it is told of the failure. */
  ghost function CircuitAfter(cfg: Config, pass: Pass, s: State): Option<CB.Snapshot>
    requires EndOf(pass, s).Breaks?
  {
    if cfg.circuit.None? then None
    else
      var history := s.breaker + Asking(cfg, pass, s) + Telling(cfg, pass, FailureCall(pass, s));
      Some(CB.SnapshotOf(cfg.circuit.value, history, s.route.active.providerId))
  }

  lemma ReportTells(cfg: Config, pass: Pass, s: State, kind: Option<string>)
    ensures var (s', circuit) := ReportFailure(cfg, pass, s, kind); var p := s.route.active.providerId;
      var call := if Retry.CountsAgainstHealth(kind) then CB.RecordFailure(p, pass.reportedAt) else CB.Inspect(p);
      && s' == s.(log := s'.log, breaker := s.breaker + Telling(cfg, pass, call))
      && Bodies(s'.log) == Bodies(s.log) && Chunks(s'.log) == Chunks(s.log) && Calls(s'.log) == Calls(s.log)
      && circuit == if cfg.circuit.None? then None
                    else Some(CB.SnapshotOf(cfg.circuit.value, s.breaker + Telling(cfg, pass, call), p))
  {
    hide Bodies, Chunks, Calls, Note, CB.SnapshotOf;
    var p := s.route.active.providerId;
    var counts := Retry.CountsAgainstHealth(kind);
    var call := if counts then CB.RecordFailure(p, pass.reportedAt) else CB.Inspect(p);
    if cfg.circuit.None? {
      assert s.breaker + [] == s.breaker;
    } else {
      var history := s.breaker + pass.othersAfter + [call];
      assert history == s.breaker + (pass.othersAfter + [call]);
      NoteStep(s.(breaker := history), if counts then HealthFailure(p, kind) else HealthInspect(p));
      assert Chunks(s.log) + [] == Chunks(s.log);
    }
  }

  /** After reasoning was shown, the message is announced again. */
  function Reannounced(pass: Pass, s: State): seq<Body> {
    if Reasons(HeardBy(pass, s)) then [MessageStarted] else []
  }

  lemma AnnouncingTells(s: State, reasoned: bool)
    ensures OnlyShows(s, if reasoned then [MessageStarted] else [], Announce(s, reasoned))
  {
    hide Emit, Bodies, Chunks, Calls;
    EmitStep(s, MessageStarted);
    assert Bodies(s.log) + [] == Bodies(s.log);
  }

  /** A failure that may be retried is, unless the parent signal cuts the wait short. */
  lemma RetriedPass(cfg: Config, pass: Pass, s: State)
    requires Attempted(cfg, pass, s) && Failed(pass, s) && MayRetry(cfg, pass, s)
    ensures var turn := TakeTurn(cfg, pass, s); var p := s.route.active.providerId;
      var waits := !AbortedAfter(pass, s) && (cfg.Policy().backoffMs == 0 || !pass.delayAborts);
      && (if waits then turn.Again? else turn.Finished?)
      && turn.state.usage == Usage.Finished(UsageAfter(pass, s))
      && turn.state.route == s.route.(retries := s.route.retries[p := UsedRetries(s.route, p) + 1],
                                      retryAttempts := s.route.retryAttempts + 1)
      && Answers(cfg, pass, s, turn,
                 SettledBy(pass, s, false)
                 + (if waits then Reannounced(pass, s) else [RunCancelled(EvidenceAfter(pass, s))]),
                 Telling(cfg, pass, FailureCall(pass, s)))
  {
    hide TakeTurn, Bodies, Chunks, Calls, HeardBy, ShownBy, AbortedBy, AbortedAfter, OutcomeAtEnd, Asking,
      UsageAfter, Attempted, EndOf, SettledBy, Abort, Cancel, Announce, ReplyAfter, Usage.Finished,
      Usage.EvidenceOf, FailureCall, FailureBy, Failed, Telling;
    var s2 := FailedAttempt(cfg, pass, s);
    var counted, aborts := CountRetry(s2), !s2.aborted && pass.delayAborts;
    var waited := Abort(counted, aborts);
    AbortStep(counted, aborts);
    AnnouncingTells(waited, Reasons(HeardBy(pass, s)));
    CancellingTells(waited);
    EvidenceStays(UsageAfter(pass, s));
    var shown := Bodies(s.log) + ShownBy(pass, s);
    assert forall more :: (shown + SettledBy(pass, s, false)) + more == shown + (SettledBy(pass, s, false) + more);
  }

  lemma EvidenceStays(u: Usage.Usages)
    ensures Usage.EvidenceOf(Usage.Finished(u)) == Usage.EvidenceOf(u)
    ensures Usage.Finished(Usage.Finished(u)) == Usage.Finished(u)
  {
    Usage.EvidenceIsIdempotent(u);
  }

  /** What the run's route becomes when it falls back: from the target that failed to the configured one. */
  function SwitchedRoute(route: Route, requested: Option<string>, reason: string): Route
    requires route.fallback.Some?
  {
    var from, to := route.active, route.fallback.value;
    var snapshot := FallbackSnapshot(from.modelId, from.providerId, requested, reason, to.modelId, to.providerId);
    Route(to, None, Some(snapshot), route.retries, route.retryAttempts)
  }

  /** The run may still change over to its fallback. */
  predicate MayFallBack(s: State) {
    s.route.fallback.Some? && !s.reply.emitted
  }

  /** Whether a fallback can be tried, and what becomes of the run. */
  lemma FallingBackTells(s: State, r: Resolution, reason: string)
    ensures var fell := TryFallback(s, r, reason);
      && (fell.Unavailable? <==> !MayFallBack(s))
      && (fell.Escaped? <==> MayFallBack(s) && r.answer.Refused?)
      && (!fell.Unavailable? ==>
            && Alike(fell.state.log, s.log)
            && fell.state == s.(log := fell.state.log, aborted := s.aborted || ParentAbort in r.signals,
                                route := if r.answer.Resolved? then SwitchedRoute(s.route, r.answer.requested, reason)
                                         else s.route))
  {
    hide Bodies, Chunks, Calls, Abort;
    AbortStep(s, ParentAbort in r.signals);
  }

  /**
   A failure that is not retried, in a run that has said nothing and has a fallback left: the run
   changes over to it, reporting from where, to where and why; or, if the fallback's parameters
   are refused, it escapes.
   */
  lemma SwitchedPass(cfg: Config, pass: Pass, s: State)
    requires Attempted(cfg, pass, s) && Failed(pass, s) && !MayRetry(cfg, pass, s)
    requires s.route.fallback.Some? && !ReplyAfter(pass, s).emitted
    ensures var turn := TakeTurn(cfg, pass, s); var resolved := pass.fallback.answer.Resolved?;
      && (if resolved then turn.Again? else turn.Escapes?)
      && turn.state.usage == Usage.Finished(UsageAfter(pass, s))
      && turn.state.route == (if resolved
                              then SwitchedRoute(s.route, pass.fallback.answer.requested, FailureBy(pass, s).0)
                              else s.route)
      && Answers(cfg, pass, s, turn, SettledBy(pass, s, false) + (if resolved then Reannounced(pass, s) else []),
                 Telling(cfg, pass, FailureCall(pass, s)))
  {
    hide TakeTurn, Bodies, Chunks, Calls, HeardBy, ShownBy, AbortedBy, AbortedAfter, OutcomeAtEnd, Asking,
      UsageAfter, Attempted, EndOf, SettledBy, Announce, ReplyAfter, Usage.Finished, FailureCall, FailureBy,
      Telling, TryFallback, SwitchedRoute;
    var s2 := FailedAttempt(cfg, pass, s);
    var code := FailureBy(pass, s).0;
    FallingBackTells(s2, pass.fallback, code);
    var fell := TryFallback(s2, pass.fallback, code);
    if fell.Switched? {
      AnnouncingTells(fell.state, Reasons(HeardBy(pass, s)));
    }
    var shown := Bodies(s.log) + ShownBy(pass, s);
    assert forall more :: (shown + SettledBy(pass, s, false)) + more == shown + (SettledBy(pass, s, false) + more);
    assert shown + SettledBy(pass, s, false) == shown + (SettledBy(pass, s, false) + []);
  }

  /** Otherwise the failure ends the run, and its event tells the failure, the retries and the fallback. */
  lemma FailedPass(cfg: Config, pass: Pass, s: State)
    requires Attempted(cfg, pass, s) && Failed(pass, s) && !MayRetry(cfg, pass, s)
    requires s.route.fallback.None? || ReplyAfter(pass, s).emitted
    ensures var turn := TakeTurn(cfg, pass, s); var (code, kind) := FailureBy(pass, s);
      var circuit := CircuitAfter(cfg, pass, s);
      && turn.Finished? && turn.state.usage == Usage.Finished(UsageAfter(pass, s)) && turn.state.route == s.route
      && Answers(cfg, pass, s, turn,
                 SettledBy(pass, s, false)
                 + [RunFailed(ProviderFailure(
                                code, kind,
                                if circuit.Some? && circuit.value.state == CB.Closed then None else circuit,
                                s.route.snapshot, s.route.retryAttempts),
                              EvidenceAfter(pass, s))],
                 Telling(cfg, pass, FailureCall(pass, s)))
  {
    hide TakeTurn, Bodies, Chunks, Calls, HeardBy, ShownBy, AbortedBy, AbortedAfter, OutcomeAtEnd, Asking,
      UsageAfter, Attempted, EndOf, SettledBy, ReplyAfter, Usage.Finished, Usage.EvidenceOf, FailureCall,
      FailureBy, Telling, TryFallback, CircuitAfter, Close;
    var s2 := FailedAttempt(cfg, pass, s);
    var (code, kind) := FailureBy(pass, s);
    FallingBackTells(s2, pass.fallback, code);
    EvidenceStays(UsageAfter(pass, s));
    var circuit := Shown(CircuitAfter(cfg, pass, s));
    var failure := ProviderFailure(code, kind, circuit, s.route.snapshot, s.route.retryAttempts);
    ClosingTells(s2, RunFailed(failure, Usage.EvidenceOf(s2.usage)));
    var shown := Bodies(s.log) + ShownBy(pass, s);
    assert forall more :: (shown + SettledBy(pass, s, false)) + more == shown + (SettledBy(pass, s, false) + more);
  }

  // ---------- A pass that calls no provider ----------

  /** Why the provider is not called, and the circuit to report. */
  ghost function Barred(cfg: Config, pass: Pass, s: State): (string, Option<CB.Snapshot>)
    requires !Attempted(cfg, pass, s)
  {
    if SwitchedOff(cfg, s) then ("provider_disabled", None)
    else ("provider_circuit_open", Circuit(cfg, pass, s))
  }

  /** The breaker is asked, unless the provider is switched off. */
  function AskingIfOn(cfg: Config, pass: Pass, s: State): seq<CB.Call> {
    if SwitchedOff(cfg, s) then [] else Asking(cfg, pass, s)
  }

  lemma BarredTells(cfg: Config, pass: Pass, s: State) returns (s2: State)
    requires !Attempted(cfg, pass, s)
    ensures s2 == s.(log := s2.log, breaker := s.breaker + AskingIfOn(cfg, pass, s),
                     aborted := s.aborted || ParentAbort in pass.before)
    ensures Alike(s2.log, s.log)
    ensures TakeTurn(cfg, pass, s) == FallbackOr(s2, pass, Barred(cfg, pass, s).0, Barred(cfg, pass, s).1)
  {
    hide Abort, Note, Bodies, Chunks, Calls, CB.SnapshotOf, FallbackOr;
    var s1 := Abort(s, ParentAbort in pass.before);
    AbortStep(s, ParentAbort in pass.before);
    var p := s1.route.active.providerId;
    if cfg.KillSwitched(p) {
      s2 := s1;
      assert s.breaker + [] == s.breaker;
    } else {
      s2 := AskCircuit(cfg, pass, s1).0;
      var history := s1.breaker + pass.othersBefore + [CB.BeforeAttempt(p, pass.askedAt)];
      assert history == s.breaker + Asking(cfg, pass, s);
      NoteStep(s1.(breaker := history), Gate(p, Circuit(cfg, pass, s)));
      assert Chunks(s.log) + [] == Chunks(s.log);
    }
  }

  /** A provider that may not be called: the run falls back, escapes, or fails with the reason. */
  lemma BarredPass(cfg: Config, pass: Pass, s: State)
    requires !Attempted(cfg, pass, s)
    ensures var turn := TakeTurn(cfg, pass, s); var (reason, circuit) := Barred(cfg, pass, s);
      && Chunks(turn.state.log) == Chunks(s.log) && Calls(turn.state.log) == Calls(s.log) && turn.state.reply == s.reply
      && turn.state.breaker == s.breaker + AskingIfOn(cfg, pass, s)
      && (turn.Again? <==> MayFallBack(s) && pass.fallback.answer.Resolved?)
      && (turn.Escapes? <==> MayFallBack(s) && pass.fallback.answer.Refused?)
      && (turn.Again? ==>
            turn.state.route == SwitchedRoute(s.route, pass.fallback.answer.requested, reason))
      && (turn.Finished? || turn.Escapes? ==> turn.state.route == s.route)
      && Bodies(turn.state.log) == Bodies(s.log)
         + (if turn.Finished?
            then [RunFailed(ProviderFailure(reason, None, circuit, s.route.snapshot, s.route.retryAttempts),
                            Usage.EvidenceOf(s.usage))]
            else [])
  {
    hide TakeTurn, Bodies, Chunks, Calls, Attempted, TryFallback, Close, SwitchedRoute, Usage.EvidenceOf,
      Usage.Finished, AskingIfOn;
    BarredIsShown(cfg, pass, s);
    var s2 := BarredTells(cfg, pass, s);
    var (reason, circuit) := Barred(cfg, pass, s);
    FallingBackTells(s2, pass.fallback, reason);
    var failure := ProviderFailure(reason, None, Shown(circuit), s.route.snapshot, s.route.retryAttempts);
    ClosingTells(s2, RunFailed(failure, Usage.EvidenceOf(s2.usage)));
    assert Bodies(s.log) + [] == Bodies(s.log);
  }

  /** The circuit reported for a barred provider is open, so it is shown. */
  lemma BarredIsShown(cfg: Config, pass: Pass, s: State)
    requires !Attempted(cfg, pass, s)
    ensures Shown(Barred(cfg, pass, s).1) == Barred(cfg, pass, s).1
  {
    hide Circuit;
  }

  // ---------- A pass that is asked for tools ----------

  /** The first call at or after i whose tool does not return, or the number of calls. */
  function FirstStop(pass: Pass, calls: seq<ToolCall>, i: nat): (k: nat)
    requires i <= |calls|
    ensures i <= k <= |calls|
    ensures forall j :: i <= j < k ==> pass.tools(j).outcome.Returns?
    ensures k < |calls| ==> !pass.tools(k).outcome.Returns?
    decreases |calls| - i
  {
    if i == |calls| || !pass.tools(i).outcome.Returns? then i else FirstStop(pass, calls, i + 1)
  }

  /** The answers of the calls from i on, each with what its tool returned. */
  function ResultsFrom(pass: Pass, calls: seq<ToolCall>, i: nat): (r: seq<Message>)
    requires i <= |calls| && forall j :: i <= j < |calls| ==> pass.tools(j).outcome.Returns?
    ensures |r| == |calls| - i
    ensures forall j :: 0 <= j < |r| ==>
              r[j] == ToolAnswer(pass.tools(i + j).outcome.content, calls[i + j].name, calls[i + j].providerCallId)
    decreases |calls| - i
  {
    if i == |calls| then []
    else
      [ToolAnswer(pass.tools(i).outcome.content, calls[i].name, calls[i].providerCallId)]
      + ResultsFrom(pass, calls, i + 1)
  }

  /** The terminal event of a call whose tool does not return. */
  function StoppedBy(request: RequestedTool, outcome: ToolOutcome, evidence: Usage.Evidence): Body
    requires !outcome.Returns?
  {
    match outcome
    case Suspends(dispatch) => WaitingToolDispatch(dispatch, request, evidence)
    case Throws(error) =>
      if WantsApproval(error) then WaitingToolApproval(ToolFailureData(error, request), evidence)
      else RunFailed(ToolFailureData(error, request), evidence)
  }

  /** The thrown error's code, its `errorCode` before its `code`, asks for approval. */
  predicate WantsApproval(e: ToolError) {
    e.errorCode == Some("tool_approval_required") || (e.errorCode.None? && e.code == Some("tool_approval_required"))
  }

  /** The same state but for the history and the signal, with no event and no chunk added. */
  ghost predicate OnlyNotes(s: State, s': State) {
    && s' == s.(log := s'.log, aborted := s'.aborted)
    && Bodies(s'.log) == Bodies(s.log) && Chunks(s'.log) == Chunks(s.log) && Calls(s'.log) == Calls(s.log)
  }

  lemma RanTells(s: State, call: ToolCall, outcome: ToolOutcome, aborts: bool)
    ensures OnlyNotes(s, Abort(Note(s, ToolRun(call, outcome)), aborts))
  {
    hide Bodies, Chunks, Calls, Note, Abort;
    NoteStep(s, ToolRun(call, outcome));
    AbortStep(Note(s, ToolRun(call, outcome)), aborts);
    assert Chunks(s.log) + [] == Chunks(s.log);
  }

  lemma StopTells(request: RequestedTool, outcome: ToolOutcome, evidence: Usage.Evidence)
    requires !outcome.Returns?
    ensures StopBody(request, outcome, evidence) == StoppedBy(request, outcome, evidence)
  {
    assert "tool_approval_required" in KNOWN_TOOL_ERRORS && "tool_approval_required" != "model_tool_execution_failed";
  }

  /** The batch runs up to the first tool that does not return. */
  lemma {:induction false} RunToolsTells(
    cfg: Config, pass: Pass, s: State, calls: seq<ToolCall>, i: nat, answers: seq<Message>)
    returns (s': State)
    requires i <= |calls|
    ensures OnlyNotes(s, s')
    ensures var k := FirstStop(pass, calls, i);
      RunTools(cfg, pass, s, calls, i, answers) ==
      if k == |calls| then AllRan(s', answers + ResultsFrom(pass, calls, i))
      else Stopped(Close(s', StoppedBy(RequestOf(cfg, calls[k]), pass.tools(k).outcome, Usage.EvidenceOf(s.usage))))
    decreases |calls| - i
  {
    hide Bodies, Chunks, Calls, Note, Abort, Close, StopBody, StoppedBy, RequestOf, Usage.EvidenceOf;
    if i == |calls| {
      s' := s;
      assert answers + ResultsFrom(pass, calls, i) == answers;
    } else {
      var call, reply := calls[i], pass.tools(i);
      var s1 := Abort(Note(s, ToolRun(call, reply.outcome)), reply.aborts);
      RanTells(s, call, reply.outcome, reply.aborts);
      if reply.outcome.Returns? {
        var answer := ToolAnswer(reply.outcome.content, call.name, call.providerCallId);
        s' := RunToolsTells(cfg, pass, s1, calls, i + 1, answers + [answer]);
        if FirstStop(pass, calls, i) == |calls| {
          assert (answers + [answer]) + ResultsFrom(pass, calls, i + 1) == answers + ResultsFrom(pass, calls, i);
        }
      } else {
        s' := s1;
        StopTells(RequestOf(cfg, call), reply.outcome, Usage.EvidenceOf(s1.usage));
      }
    }
  }

  /** Each requested tool is announced by its name and its hashed id. */
  function Announced(cfg: Config, calls: seq<ToolCall>): seq<Body> {
    if calls == [] then []
    else
      var last := calls[|calls| - 1];
      Announced(cfg, calls[..|calls| - 1])
      + [ToolRequested(RequestedTool(last.name, cfg.redact("provider.tool_call.event.v1\0" + last.providerCallId)))]
  }

  lemma {:induction false} AnnouncedTells(cfg: Config, s: State, calls: seq<ToolCall>)
    ensures OnlyShows(s, Announced(cfg, calls), EmitRequests(cfg, s, calls))
  {
    hide OnlyShows, Emit;
    if calls == [] {
      ShowingNothing(s);
    } else {
      var init := calls[..|calls| - 1];
      AnnouncedTells(cfg, s, init);
      var last := ToolRequested(RequestOf(cfg, calls[|calls| - 1]));
      ShowingMore(s, Announced(cfg, init), EmitRequests(cfg, s, init), last);
    }
  }

  /** The tools the pass was asked for. */
  function BatchOf(pass: Pass, s: State): (calls: seq<ToolCall>)
    requires EndOf(pass, s).AsksForTools?
    ensures calls != []
  {
    RequestedCalls(EndOf(pass, s).toolCall, EndOf(pass, s).toolCalls)
  }

  /** A tool request settles the attempt, closes its usage and announces the batch. */
  lemma AskedForTools(cfg: Config, pass: Pass, s: State) returns (s2: State)
    requires Attempted(cfg, pass, s) && EndOf(pass, s).AsksForTools?
    ensures Bodies(s2.log) == Bodies(s.log) + ShownBy(pass, s) + SettledBy(pass, s, true)
                              + Announced(cfg, BatchOf(pass, s))
    ensures Chunks(s2.log) == Chunks(s.log) + HeardBy(pass, s)
                              + [ToolRequest(EndOf(pass, s).toolCall, EndOf(pass, s).toolCalls)]
    ensures Calls(s2.log) == Calls(s.log) + CallBy(pass, s)
    ensures s2.breaker == s.breaker + Asking(cfg, pass, s) && s2.reply == ReplyAfter(pass, s)
    ensures s2.usage == Usage.Finished(UsageAfter(pass, s)) && s2.route == s.route
    ensures TakeTurn(cfg, pass, s) == Consumed(cfg, pass, Dispatch(cfg, pass, s2, BatchOf(pass, s),
                                                                  Reasons(HeardBy(pass, s))))
  {
    hide TakeTurn, Bodies, Chunks, Calls, HeardBy, ShownBy, AbortedBy, OutcomeAtEnd, Asking, UsageAfter, Attempted,
      EndOf, SettledBodies, Settle, ReplyAfter, Note, Usage.Finished, RunTools, Fail, Continued, RequestOf,
      Announced, EmitRequests, Dispatch;
    var s0, a := AttemptEnds(cfg, pass, s);
    SummaryIsOpen(ReadBy(pass, s), Retains(pass));
    var chunk := ToolRequest(EndOf(pass, s).toolCall, EndOf(pass, s).toolCalls);
    var s1, calls := Note(s0, Handled(chunk)), BatchOf(pass, s);
    NoteStep(s0, Handled(chunk));
    SettleTells(s1, a, true, pass.settledAt);
    var settled := Settle(s1, a, true, pass.settledAt);
    var closed := settled.(usage := Usage.Finished(settled.usage));
    AnnouncedTells(cfg, closed, calls);
    s2 := EmitRequests(cfg, closed, calls);
    assert s2 == Requested(cfg, pass, s1, a, calls);
  }

  /** The batch cannot be run, and what the run says of it. */
  function Refusal(cfg: Config, pass: Pass, s: State): Option<Failure>
    requires EndOf(pass, s).AsksForTools?
  {
    var calls, left := BatchOf(pass, s), cfg.ToolBudget() - s.reply.toolCalls;
    if !cfg.hasToolExecutor then
      Some(ToolFailure("provider_tool_call_dispatch_unavailable", None, RequestOf(cfg, calls[0])))
    else if |calls| > left then
      var named := if 0 <= left < |calls| then calls[left] else calls[|calls| - 1];
      Some(ToolFailure("model_tool_call_limit_exceeded", None, RequestOf(cfg, named)))
    else None
  }

  /** The same with a tool request at its end. */
  ghost predicate AnswersTools(cfg: Config, pass: Pass, s: State, turn: Turn, bodies: seq<Body>)
    requires EndOf(pass, s).AsksForTools?
  {
    && Bodies(turn.state.log) == Bodies(s.log) + ShownBy(pass, s) + SettledBy(pass, s, true)
                                 + Announced(cfg, BatchOf(pass, s)) + bodies
    && Chunks(turn.state.log) == Chunks(s.log) + HeardBy(pass, s)
                                 + [ToolRequest(EndOf(pass, s).toolCall, EndOf(pass, s).toolCalls)]
    && Calls(turn.state.log) == Calls(s.log) + CallBy(pass, s)
    && turn.state.breaker == s.breaker + Asking(cfg, pass, s)
    && turn.state.usage == Usage.Finished(UsageAfter(pass, s))
    && turn.state.route == s.route
  }

  /** A batch without an executor, or past the budget, ends the run and names the call. */
  lemma RefusedToolsPass(cfg: Config, pass: Pass, s: State)
    requires Attempted(cfg, pass, s) && EndOf(pass, s).AsksForTools? && Refusal(cfg, pass, s).Some?
    ensures var turn := TakeTurn(cfg, pass, s);
      && turn.Finished? && turn.state.reply == ReplyAfter(pass, s)
      && AnswersTools(cfg, pass, s, turn, [RunFailed(Refusal(cfg, pass, s).value, EvidenceAfter(pass, s))])
  {
    hide TakeTurn, Bodies, Chunks, Calls, HeardBy, ShownBy, Asking, UsageAfter, Attempted, EndOf, SettledBy,
      Usage.Finished, Usage.EvidenceOf, Close, RequestOf, Announced, BatchOf, RunTools;
    var s2 := AskedForTools(cfg, pass, s);
    EvidenceStays(UsageAfter(pass, s));
    ClosingTells(s2, RunFailed(Refusal(cfg, pass, s).value, Usage.EvidenceOf(s2.usage)));
  }

  /** A tool that does not return ends the run in its own way, after the tools before it returned. */
  lemma StoppedToolsPass(cfg: Config, pass: Pass, s: State)
    requires Attempted(cfg, pass, s) && EndOf(pass, s).AsksForTools? && Refusal(cfg, pass, s).None?
    requires FirstStop(pass, BatchOf(pass, s), 0) < |BatchOf(pass, s)|
    ensures var turn, calls := TakeTurn(cfg, pass, s), BatchOf(pass, s); var k := FirstStop(pass, calls, 0);
      && turn.Finished? && turn.state.reply == ReplyAfter(pass, s)
      && AnswersTools(cfg, pass, s, turn,
                      [StoppedBy(RequestOf(cfg, calls[k]), pass.tools(k).outcome, EvidenceAfter(pass, s))])
  {
    hide TakeTurn, Bodies, Chunks, Calls, HeardBy, ShownBy, Asking, UsageAfter, Attempted, EndOf, SettledBy,
      Usage.Finished, Usage.EvidenceOf, Close, RequestOf, Announced, BatchOf, RunTools, StoppedBy;
    var s2 := AskedForTools(cfg, pass, s);
    var calls := BatchOf(pass, s);
    var k := FirstStop(pass, calls, 0);
    EvidenceStays(UsageAfter(pass, s));
    var s3 := RunToolsTells(cfg, pass, s2, calls, 0, []);
    ClosingTells(s3, StoppedBy(RequestOf(cfg, calls[k]), pass.tools(k).outcome, EvidenceAfter(pass, s)));
  }

  /** When every tool returns, the run goes on with the request, its text and the tools' results. */
  lemma AnsweredToolsPass(cfg: Config, pass: Pass, s: State)
    requires Attempted(cfg, pass, s) && EndOf(pass, s).AsksForTools? && Refusal(cfg, pass, s).None?
    requires FirstStop(pass, BatchOf(pass, s), 0) == |BatchOf(pass, s)|
    ensures var turn, calls, r := TakeTurn(cfg, pass, s), BatchOf(pass, s), ReplyAfter(pass, s);
      && turn.Again? && AnswersTools(cfg, pass, s, turn, Reannounced(pass, s))
      && turn.state.reply == Reply(r.content, "", r.emitted,
                                   s.reply.messages + [Assistant(r.current, calls)] + ResultsFrom(pass, calls, 0),
                                   s.reply.toolCalls + |calls|)
  {
    hide TakeTurn, Bodies, Chunks, Calls, HeardBy, ShownBy, Asking, UsageAfter, Attempted, EndOf, SettledBy,
      Usage.Finished, Close, RequestOf, Announced, BatchOf, RunTools, StoppedBy;
    var s2 := AskedForTools(cfg, pass, s);
    var calls := BatchOf(pass, s);
    var s3 := RunToolsTells(cfg, pass, s2, calls, 0, []);
    var answers := ResultsFrom(pass, calls, 0);
    assert [] + answers == answers;
    var r := s3.reply;
    var s4 := s3.(reply := Reply(r.content, "", r.emitted, r.messages + [Assistant(r.current, calls)] + answers,
                                 r.toolCalls + |calls|));
    AnnouncingTells(s4, Reasons(HeardBy(pass, s)));
  }
}
