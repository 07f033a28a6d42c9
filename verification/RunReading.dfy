/**
 What an attempt makes of its provider's stream, told from the script alone: which chunks
 it uses, what it says and buffers because of them, and where it stops reading. The
 functions here are filters over the pulls; the lemmas tie them to `Consume`.
 */
module RunReading {
  import opened Wrappers
  import opened RunTypes
  import opened RunLog
  import opened RunSpec
  import opened RunConversations
  import CB = CircuitBreaker
  import Retry = RetryPolicy
  import Usage = UsageTracker
  import Reasoning = ReasoningSummary
  import opened StreamRuntime

  // ---------- The chunks an attempt uses ----------

  /** The iterator yields a chunk, and nothing is signalled around it. */
  predicate Quiet(pull: Pull) {
    pull.before == [] && pull.answer.Yields? && pull.answer.late == []
  }

  /** A chunk after which the attempt pulls again. */
  predicate ReadsOn(pull: Pull) {
    Quiet(pull) && !pull.answer.chunk.ToolRequest?
  }

  /** How many pulls the attempt reads on from, before the one that ends its reading. */
  function ReadLength(pulls: seq<Pull>): (n: nat)
    ensures n <= |pulls|
    ensures forall i :: 0 <= i < n ==> ReadsOn(pulls[i])
    ensures n < |pulls| ==> !ReadsOn(pulls[n])
  {
    if pulls == [] || !ReadsOn(pulls[0]) then 0
    else
      var n := ReadLength(pulls[1..]);
      assert forall i :: 0 < i <= n ==> pulls[i] == pulls[1..][i - 1];
      n + 1
  }

  /** The pulls the attempt reads on from. */
  function Read(pass: Pass): seq<Pull> {
    pass.pulls[..ReadLength(pass.pulls)]
  }

  /** The pull that ends the reading. */
  function LastPull(pass: Pass): (pull: Pull)
    ensures !ReadsOn(pull)
  {
    PullAt(pass, ReadLength(pass.pulls))
  }

  function ChunkIn(pull: Pull): seq<Chunk> {
    if pull.answer.Yields? then [pull.answer.chunk] else []
  }

  /** The chunks of these pulls. */
  function ChunksOf(pulls: seq<Pull>): seq<Chunk> {
    if pulls == [] then [] else ChunksOf(pulls[..|pulls| - 1]) + ChunkIn(pulls[|pulls| - 1])
  }

  /** All chunks the attempt uses: those it reads on from, and a tool request that ends the reading. */
  function Delivered(pass: Pass): seq<Chunk> {
    ChunksOf(Read(pass)) + if Quiet(LastPull(pass)) then [LastPull(pass).answer.chunk] else []
  }

  function Asks(pulls: seq<Pull>): (r: seq<Asked>)
    ensures |r| == |pulls| && forall i :: 0 <= i < |r| ==> r[i] == Asked(pulls[i].before, pulls[i].answer)
  {
    if pulls == [] then []
    else Asks(pulls[..|pulls| - 1]) + [Asked(pulls[|pulls| - 1].before, pulls[|pulls| - 1].answer)]
  }

  /** Reading stops where the runtime first settles a pull with anything but a usable chunk, or asks for tools. */
  lemma ReadsWhatIsSettled(pass: Pass, i: nat)
    requires i < |pass.pulls| && i <= ReadLength(pass.pulls)
    ensures var r := Settled(None, Asks(pass.pulls));
      && (i < ReadLength(pass.pulls) ==> r[i] == (Value(pass.pulls[i].answer.chunk), None))
      && (i == ReadLength(pass.pulls) && r[i].0.Value? && r[i].1.None? ==> r[i].0.chunk.ToolRequest?)
  {
    hide Settled;
    var asks := Asks(pass.pulls);
    ChunksComeBeforeSignals(None, asks, i);
    forall k | 0 <= k < i ensures asks[k].before == [] && SignalsOf(asks[k].answer) == [] {
      assert ReadsOn(pass.pulls[k]);
    }
  }

  // ---------- What the chunks make the attempt do ----------

  predicate IsReasoning(chunk: Chunk) {
    chunk.PrivateReasoning? || chunk.SafeSummary?
  }

  predicate Reasons(chunks: seq<Chunk>) {
    exists i :: 0 <= i < |chunks| && IsReasoning(chunks[i])
  }

  /** A delta for each token; a notice for the first reasoning, unless it is a summary to be kept. */
  function BodiesFor(chunks: seq<Chunk>, retain: bool): seq<Body> {
    if chunks == [] then []
    else
      var earlier, last := chunks[..|chunks| - 1], chunks[|chunks| - 1];
      BodiesFor(earlier, retain) + BodyFor(last, Reasons(earlier), retain)
  }

  function BodyFor(chunk: Chunk, reasonedBefore: bool, retain: bool): seq<Body> {
    if chunk.Token? then [MessageDelta(chunk.text)]
    else if IsReasoning(chunk) && !reasonedBefore && !(chunk.SafeSummary? && retain) then [MessageReasoning]
    else []
  }

  function Cut(text: string): string {
    if |text| <= Reasoning.MAX_DELTA_CHARACTERS then text else text[..Reasoning.MAX_DELTA_CHARACTERS]
  }

  /** The summary texts to be kept, each cut, and the time of the first. */
  function SummaryOf(read: seq<Pull>, retain: bool): Reasoning.Summary {
    if read == [] || !retain then Reasoning.NO_SUMMARY
    else
      var earlier, last := SummaryOf(read[..|read| - 1], retain), read[|read| - 1];
      if last.answer.Yields? && last.answer.chunk.SafeSummary? then
        Reasoning.Summary(earlier.texts + [Cut(last.answer.chunk.text)],
                          if earlier.startedAt.Some? then earlier.startedAt else Some(last.at), false)
      else earlier
  }

  /** The usage reports, sanitized. */
  function ReportsIn(chunks: seq<Chunk>, trustedSource: string): seq<TokenUsage> {
    if chunks == [] then []
    else
      var last := chunks[|chunks| - 1];
      ReportsIn(chunks[..|chunks| - 1], trustedSource)
      + if last.UsageChunk? then [Usage.SanitizedUsage(last.usage, trustedSource)] else []
  }

  /** The events' bodies, in order. */
  function Bodies(log: seq<Entry>): seq<Body> {
    if log == [] then []
    else Bodies(log[..|log| - 1]) + if log[|log| - 1].Yielded? then [log[|log| - 1].event.body] else []
  }

  /** A streamChat call, as the provider gets it. */
  datatype StreamCall = StreamCall(target: Target, messages: seq<Message>, parameters: string)

  /** The streamChat calls, in order. */
  function Calls(log: seq<Entry>): seq<StreamCall> {
    if log == [] then []
    else
      var e := log[|log| - 1];
      Calls(log[..|log| - 1]) + if e.Stream? then [StreamCall(e.target, e.messages, e.parameters)] else []
  }

  /** Two histories with the same events, used chunks and calls. */
  ghost predicate Alike(log: seq<Entry>, other: seq<Entry>) {
    Bodies(log) == Bodies(other) && Chunks(log) == Chunks(other) && Calls(log) == Calls(other)
  }

  /** From s0, the attempt has read these pulls and would read on. */
  ghost predicate HasRead(s0: State, retain: bool, read: seq<Pull>, s: State, a: Attempt) {
    var chunks, r := ChunksOf(read), s0.reply;
    && Bodies(s.log) == Bodies(s0.log) + BodiesFor(chunks, retain) && Chunks(s.log) == Chunks(s0.log) + chunks
    && Calls(s.log) == Calls(s0.log)
    && s.reply == Reply(r.content + TokenText(chunks), r.current + TokenText(chunks),
                        r.emitted || TokenTexts(chunks) != [], r.messages, r.toolCalls)
    && s.usage == Usage.ObservedAll(s0.usage, s0.route.active, ReportsIn(chunks, s0.route.active.adapterKind))
    && s.route == s0.route && s.breaker == s0.breaker && s.aborted == s0.aborted
    && a == Attempt(None, SummaryOf(read, retain), Reasons(chunks), retain)
  }

  // ---------- One step ----------

  lemma EmitStep(s: State, body: Body)
    ensures var s' := Emit(s, body);
      && s' == s.(sequence := s'.sequence, log := s'.log)
      && Bodies(s'.log) == Bodies(s.log) + [body] && Chunks(s'.log) == Chunks(s.log) && Calls(s'.log) == Calls(s.log)
  {
    LastOf(s.log, Yielded(Event(s.sequence + 1, body)));
  }

  lemma NoteStep(s: State, e: Entry)
    requires !e.Yielded?
    ensures var s' := Note(s, e);
      && s' == s.(log := s'.log)
      && Bodies(s'.log) == Bodies(s.log) && Chunks(s'.log) == Chunks(s.log) + (if e.Handled? then [e.chunk] else [])
      && Calls(s'.log) == if e.Stream? then Calls(s.log) + [StreamCall(e.target, e.messages, e.parameters)]
                          else Calls(s.log)
  {
    LastOf(s.log, e);
    assert Calls(s.log) + [] == Calls(s.log);
    assert Bodies(s.log) + [] == Bodies(s.log);
  }

  lemma AbortStep(s: State, happens: bool)
    ensures var s' := Abort(s, happens);
      && s' == s.(log := s'.log, aborted := s.aborted || happens)
      && Bodies(s'.log) == Bodies(s.log) && Chunks(s'.log) == Chunks(s.log) && Calls(s'.log) == Calls(s.log)
  {
    hide Logged, Note;
    if happens && !s.aborted {
      NoteStep(s.(aborted := true), ParentAborted);
      assert Chunks(s.log) + [] == Chunks(s.log);
    }
  }

  /** What one more chunk adds to what has been read. */
  lemma OneMoreChunk(read: seq<Pull>, pull: Pull, retain: bool, trustedSource: string)
    requires pull.answer.Yields?
    ensures var chunk, chunks := pull.answer.chunk, ChunksOf(read); var more := chunks + [chunk];
      && ChunksOf(read + [pull]) == more
      && BodiesFor(more, retain) == BodiesFor(chunks, retain) + BodyFor(chunk, Reasons(chunks), retain)
      && TokenTexts(more) == TokenTexts(chunks) + (if chunk.Token? then [chunk.text] else [])
      && TokenText(more) == TokenText(chunks) + (if chunk.Token? then chunk.text else "")
      && ReportsIn(more, trustedSource) == ReportsIn(chunks, trustedSource)
                 + (if chunk.UsageChunk? then [Usage.SanitizedUsage(chunk.usage, trustedSource)] else [])
      && (Reasons(more) <==> Reasons(chunks) || IsReasoning(chunk))
  {
    var chunk, chunks := pull.answer.chunk, ChunksOf(read);
    LastOf(read, pull);
    LastOf(chunks, chunk);
    OneMoreToken(chunks, chunk);
    OneMoreReason(chunks, chunk);
  }

  lemma OneMoreToken(chunks: seq<Chunk>, chunk: Chunk)
    ensures TokenText(chunks + [chunk]) == TokenText(chunks) + (if chunk.Token? then chunk.text else "")
  {
    LastOf(chunks, chunk);
    var heard := TokenTexts(chunks);
    if chunk.Token? {
      LastOf(heard, chunk.text);
    } else {
      assert heard + [] == heard && Joined(heard) + "" == Joined(heard);
    }
  }

  lemma OneMoreReason(chunks: seq<Chunk>, chunk: Chunk)
    ensures Reasons(chunks + [chunk]) <==> Reasons(chunks) || IsReasoning(chunk)
  {
    var more := chunks + [chunk];
    assert more[|chunks|] == chunk && forall i :: 0 <= i < |chunks| ==> more[i] == chunks[i];
    if Reasons(chunks) {
      var i :| 0 <= i < |chunks| && IsReasoning(chunks[i]);
      assert IsReasoning(more[i]);
    }
  }

  lemma OneMoreSummary(read: seq<Pull>, pull: Pull, retain: bool)
    ensures var s := SummaryOf(read, retain);
      SummaryOf(read + [pull], retain) ==
      if retain && pull.answer.Yields? && pull.answer.chunk.SafeSummary? then
        Reasoning.Observed(s, Cut(pull.answer.chunk.text), pull.at)
      else s
  {
    LastOf(read, pull);
    SummaryIsOpen(read, retain);
  }

  lemma {:induction false} SummaryIsOpen(read: seq<Pull>, retain: bool)
    ensures !SummaryOf(read, retain).finished
    ensures SummaryOf(read, retain).startedAt.Some? <==> SummaryOf(read, retain).texts != []
  {
    if read != [] {
      SummaryIsOpen(read[..|read| - 1], retain);
    }
  }

  lemma OneMoreReport(u: Usage.Usages, target: Target, reports: seq<TokenUsage>, usage: TokenUsage)
    ensures Usage.ObservedAll(u, target, reports + [usage])
            == Usage.Observed(Usage.ObservedAll(u, target, reports), target, usage)
  {
    LastOf(reports, usage);
  }

  /** A quiet pull hands its chunk over and changes nothing else. */
  lemma QuietPull(cfg: Config, pass: Pass, s: State, a: Attempt, pull: Pull)
    requires Quiet(pull) && a.outcome.None?
    ensures OnPull(cfg, pass, s, a, pull) == OnChunk(cfg, pass, s, a, pull.answer.chunk, pull.at)
  {
    hide OnChunk, Settle, Cancel, Note;
    assert Receive(s, a, pull) == (s, a, Value(pull.answer.chunk));
  }

  /** What using one chunk adds, for each kind of chunk. */
  lemma UsingChunk(cfg: Config, pass: Pass, s: State, a: Attempt, chunk: Chunk, at: int)
    requires !chunk.ToolRequest?
    ensures var flow := OnChunk(cfg, pass, s, a, chunk, at);
      && flow.Pulling?
      && var s', a', r := flow.state, flow.attempt, s.reply;
         && Chunks(s'.log) == Chunks(s.log) + [chunk] && Calls(s'.log) == Calls(s.log)
         && Bodies(s'.log) == Bodies(s.log) + BodyFor(chunk, a.reasoned, a.retain)
         && s'.reply == (if chunk.Token?
                         then Reply(r.content + chunk.text, r.current + chunk.text, true, r.messages, r.toolCalls)
                         else r)
         && s'.usage == (if chunk.UsageChunk?
                         then Usage.Observed(s.usage, s.route.active,
                                             Usage.SanitizedUsage(chunk.usage, s.route.active.adapterKind))
                         else s.usage)
         && s'.route == s.route && s'.breaker == s.breaker && s'.aborted == s.aborted
         && a' == Attempt(a.outcome,
                          if chunk.SafeSummary? && a.retain then Reasoning.Observed(a.summary, Cut(chunk.text), at)
                          else a.summary,
                          a.reasoned || IsReasoning(chunk), a.retain)
  {
    hide Note, Emit, Usage.Observed, Usage.SanitizedUsage, Bodies, Chunks, Calls, Reasoning.Observed;
    var s1 := Note(s, Handled(chunk));
    NoteStep(s, Handled(chunk));
    match chunk
    case Token(text) =>
      var r := s.reply;
      var spoken := Reply(r.content + text, r.current + text, true, r.messages, r.toolCalls);
      EmitStep(s1.(reply := spoken), MessageDelta(text));
    case PrivateReasoning(_) => UsingReasoning(s1);
    case SafeSummary(_) => UsingReasoning(s1);
    case _ =>
  }

  lemma UsingReasoning(s: State)
    ensures Bodies(Emit(s, MessageReasoning).log) == Bodies(s.log) + [MessageReasoning]
    ensures Chunks(Emit(s, MessageReasoning).log) == Chunks(s.log)
    ensures Calls(Emit(s, MessageReasoning).log) == Calls(s.log)
    ensures Bodies(Note(s, SummaryBuffered).log) == Bodies(s.log) + []
    ensures Chunks(Note(s, SummaryBuffered).log) == Chunks(s.log) && Calls(Note(s, SummaryBuffered).log) == Calls(s.log)
    ensures var s' := Emit(s, MessageReasoning); s' == s.(sequence := s'.sequence, log := s'.log)
    ensures var s' := Note(s, SummaryBuffered); s' == s.(log := s'.log)
  {
    hide Note, Emit, Bodies, Chunks, Calls;
    EmitStep(s, MessageReasoning);
    NoteStep(s, SummaryBuffered);
  }

  lemma ReadingOne(cfg: Config, pass: Pass, s0: State, retain: bool, read: seq<Pull>, s: State, a: Attempt, pull: Pull)
    requires HasRead(s0, retain, read, s, a) && ReadsOn(pull)
    ensures var flow := OnPull(cfg, pass, s, a, pull);
      flow.Pulling? && HasRead(s0, retain, read + [pull], flow.state, flow.attempt)
  {
    hide OnPull, OnChunk, Bodies, Chunks, Calls, ChunksOf, BodiesFor, TokenText, TokenTexts, ReportsIn, Reasons,
      SummaryOf, Usage.Observed, Usage.ObservedAll, Usage.SanitizedUsage, Reasoning.Observed, Cut, BodyFor;
    var chunk := pull.answer.chunk;
    QuietPull(cfg, pass, s, a, pull);
    UsingChunk(cfg, pass, s, a, chunk, pull.at);
    var target, chunks := s0.route.active, ChunksOf(read);
    OneMoreChunk(read, pull, retain, target.adapterKind);
    OneMoreSummary(read, pull, retain);
    if chunk.UsageChunk? {
      OneMoreReport(s0.usage, target, ReportsIn(chunks, target.adapterKind),
                    Usage.SanitizedUsage(chunk.usage, target.adapterKind));
    }
    var flow := OnPull(cfg, pass, s, a, pull);
    var s', added := flow.state, BodyFor(chunk, a.reasoned, retain);
    assert (Bodies(s0.log) + BodiesFor(chunks, retain)) + added == Bodies(s0.log) + (BodiesFor(chunks, retain) + added);
    assert (Chunks(s0.log) + chunks) + [chunk] == Chunks(s0.log) + (chunks + [chunk]);
    if chunk.Token? {
      var r, said := s0.reply, TokenText(chunks);
      assert (r.content + said) + chunk.text == r.content + (said + chunk.text);
      assert (r.current + said) + chunk.text == r.current + (said + chunk.text);
    } else {
      assert TokenText(chunks) + "" == TokenText(chunks) && TokenTexts(chunks) + [] == TokenTexts(chunks);
    }
    var reports := ReportsIn(chunks, target.adapterKind);
    assert reports + [] == reports;
  }

  /** Before anything is read. */
  lemma NothingRead(s0: State, retain: bool)
    ensures HasRead(s0, retain, [], s0, Attempt(None, Reasoning.NO_SUMMARY, false, retain))
  {
    var r := s0.reply;
    assert ChunksOf([]) == [] && BodiesFor([], retain) == [] && TokenTexts([]) == [] && TokenText([]) == "";
    assert ReportsIn([], s0.route.active.adapterKind) == [];
    assert Bodies(s0.log) + [] == Bodies(s0.log) && Chunks(s0.log) + [] == Chunks(s0.log);
    assert r.content + "" == r.content && r.current + "" == r.current;
    assert SummaryOf([], retain) == Reasoning.NO_SUMMARY && !Reasons([]);
  }

  /** The attempt comes to every pull it reads on from, having read the ones before. */
  lemma {:induction false} ReadsUpTo(cfg: Config, pass: Pass, s0: State, retain: bool, n: nat)
    returns (s: State, a: Attempt)
    requires n <= ReadLength(pass.pulls)
    ensures HasRead(s0, retain, pass.pulls[..n], s, a)
    ensures Consume(cfg, pass, s0, Attempt(None, Reasoning.NO_SUMMARY, false, retain), 0) == Consume(cfg, pass, s, a, n)
  {
    hide HasRead, OnPull;
    if n == 0 {
      s, a := s0, Attempt(None, Reasoning.NO_SUMMARY, false, retain);
      NothingRead(s0, retain);
      assert pass.pulls[..0] == [];
    } else {
      var s1, a1 := ReadsUpTo(cfg, pass, s0, retain, n - 1);
      ReadingOne(cfg, pass, s0, retain, pass.pulls[..n - 1], s1, a1, pass.pulls[n - 1]);
      assert pass.pulls[..n] == pass.pulls[..n - 1] + [pass.pulls[n - 1]];
      var flow := OnPull(cfg, pass, s1, a1, pass.pulls[n - 1]);
      s, a := flow.state, flow.attempt;
    }
  }

  /** Reading the stream: the pulls read on from, and then whatever the last one makes of them. */
  lemma ReadsToTheLast(cfg: Config, pass: Pass, s0: State, retain: bool) returns (s: State, a: Attempt)
    ensures HasRead(s0, retain, Read(pass), s, a)
    ensures Consume(cfg, pass, s0, Attempt(None, Reasoning.NO_SUMMARY, false, retain), 0)
            == OnPull(cfg, pass, s, a, LastPull(pass))
  {
    hide HasRead, OnChunk, Settle, Cancel;
    var n := ReadLength(pass.pulls);
    s, a := ReadsUpTo(cfg, pass, s0, retain, n);
    LastPullEnds(cfg, pass, s, a);
  }

  /** The pull that ends the reading never asks for another. */
  lemma LastPullEnds(cfg: Config, pass: Pass, s: State, a: Attempt)
    ensures !OnPull(cfg, pass, s, a, LastPull(pass)).Pulling?
  {
    hide Settle, Cancel, OnToolCalls, Measured, Said, Thinks, Note;
    var pull := LastPull(pass);
    var (s1, a1, next) := Receive(s, a, pull);
  }
}
