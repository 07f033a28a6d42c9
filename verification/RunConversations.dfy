/**
 What the providers' chunks and the tools' results become, over whole runs: every token is
 said, and every tool result is sent back. The functions here only filter a history; none
 of them knows how the executor works.
 */
module RunConversations {
  import opened Wrappers
  import opened RunTypes
  import opened RunLog
  import opened RunSpec
  import opened RunInvariants
  import opened RunTheorems
  import CB = CircuitBreaker

  // ---------- Tokens ----------

  /** The chunks the attempts could use, in order. */
  function Chunks(log: seq<Entry>): seq<Chunk> {
    if log == [] then []
    else Chunks(log[..|log| - 1]) + if log[|log| - 1].Handled? then [log[|log| - 1].chunk] else []
  }

  function TokenTexts(chunks: seq<Chunk>): seq<string> {
    if chunks == [] then []
    else TokenTexts(chunks[..|chunks| - 1]) + if chunks[|chunks| - 1].Token? then [chunks[|chunks| - 1].text] else []
  }

  function DeltaTexts(t: seq<Event>): seq<string> {
    if t == [] then []
    else DeltaTexts(t[..|t| - 1]) + if t[|t| - 1].body.MessageDelta? then [t[|t| - 1].body.text] else []
  }

  function Joined(texts: seq<string>): string {
    if texts == [] then "" else Joined(texts[..|texts| - 1]) + texts[|texts| - 1]
  }

  /** The text of all tokens, in order. */
  function TokenText(chunks: seq<Chunk>): string {
    Joined(TokenTexts(chunks))
  }

  /** At every moment the deltas are the tokens so far, or all of them but the last. */
  ghost predicate SaysTokens(log: seq<Entry>) {
    forall n :: 0 <= n <= |log| ==> SaysTokensUpTo(log[..n])
  }

  ghost predicate SaysTokensUpTo(log: seq<Entry>) {
    var heard, said := TokenTexts(Chunks(log)), DeltaTexts(Events(log));
    said <= heard && |heard| <= |said| + 1
  }

  function TokenIn(e: Entry): seq<string> {
    if e.Handled? && e.chunk.Token? then [e.chunk.text] else []
  }

  ghost function DeltaIn(e: Entry): seq<string> {
    if IsDelta(e) then [e.event.body.text] else []
  }

  function DueOf(s: Spoken): seq<string> {
    if s.due.Some? then [s.due.value] else []
  }

  lemma LastOf<T>(xs: seq<T>, x: T)
    ensures (xs + [x])[..|xs + [x]| - 1] == xs && (xs + [x])[|xs + [x]| - 1] == x
  {
  }

  lemma ChunksStep(log: seq<Entry>)
    requires log != []
    ensures var before, e := log[..|log| - 1], log[|log| - 1];
      TokenTexts(Chunks(log)) == TokenTexts(Chunks(before)) + TokenIn(e)
  {
    var before, e := log[..|log| - 1], log[|log| - 1];
    if e.Handled? {
      LastOf(Chunks(before), e.chunk);
    } else {
      assert Chunks(log) == Chunks(before);
    }
  }

  lemma DeltasStep(log: seq<Entry>)
    requires log != []
    ensures var before, e := log[..|log| - 1], log[|log| - 1];
      DeltaTexts(Events(log)) == DeltaTexts(Events(before)) + DeltaIn(e)
  {
    var before, e := log[..|log| - 1], log[|log| - 1];
    if e.Yielded? {
      LastOf(Events(before), e.event);
    } else {
      assert Events(log) == Events(before);
    }
  }

  lemma DueStep(s: Spoken, e: Entry, heard: seq<string>, said: seq<string>)
    requires SpokenStep(s, e).ok && heard == said + DueOf(s)
    ensures s.ok && heard + TokenIn(e) == said + DeltaIn(e) + DueOf(SpokenStep(s, e))
  {
  }

  lemma StepIsOk(s: Spoken, e: Entry)
    requires SpokenStep(s, e).ok
    ensures s.ok
  {
  }

  lemma {:induction false} AcceptedTokens(log: seq<Entry>)
    requires Speech(log).ok
    ensures SaysTokens(log)
    ensures TokenTexts(Chunks(log)) == DeltaTexts(Events(log)) + DueOf(Speech(log))
  {
    if log != [] {
      var before, e := log[..|log| - 1], log[|log| - 1];
      LastStep(log);
      ChunksStep(log);
      DeltasStep(log);
      hide Speech, Chunks, Events, TokenTexts, DeltaTexts, TokenIn, DeltaIn, SpokenStep;
      DueStep(Speech(before), e, TokenTexts(Chunks(before)), DeltaTexts(Events(before))) by {
        StepIsOk(Speech(before), e);
        AcceptedTokens(before);
      }
      AcceptedTokens(before);
      assert SaysTokensUpTo(log);
      assert forall n :: 0 <= n < |log| ==> log[..n] == before[..n];
      assert log[..|log|] == log;
    } else {
      assert forall n :: 0 <= n <= |log| ==> log[..n] == [];
    }
  }

  lemma {:induction false} JoinedDeltas(t: seq<Event>)
    ensures Joined(DeltaTexts(t)) == DeltaText(t)
  {
    if t != [] {
      JoinedDeltas(t[..|t| - 1]);
      var said := DeltaTexts(t[..|t| - 1]);
      if t[|t| - 1].body.MessageDelta? {
        LastOf(said, t[|t| - 1].body.text);
      } else {
        assert DeltaTexts(t) == said && DeltaText(t) == DeltaText(t[..|t| - 1]) + "";
      }
    }
  }

  /**
   Every token an attempt could use is said, once and in order, before the next chunk is
   looked at; so all the deltas together are all the tokens together.
   */
  lemma EveryTokenIsSaid(cfg: Config, script: Script, breaker: seq<CB.Call>)
    ensures var log := Run(cfg, script, breaker).state.log; var t := Trace(cfg, script, breaker);
      && SaysTokens(log)
      && DeltaTexts(t) == TokenTexts(Chunks(log))
      && DeltaText(t) == TokenText(Chunks(log))
  {
    hide Run, Chunks, TokenTexts, DeltaTexts, SaysTokens;
    ContentIsSpoken(cfg, script, breaker);
    AcceptedTokens(Run(cfg, script, breaker).state.log);
    JoinedDeltas(Trace(cfg, script, breaker));
  }

  // ---------- Tools ----------

  /** The batches of tool calls the providers asked for. */
  function Batches(log: seq<Entry>): seq<seq<ToolCall>> {
    if log == [] then []
    else
      var e := log[|log| - 1];
      Batches(log[..|log| - 1])
      + if e.Handled? && e.chunk.ToolRequest? then [RequestedCalls(e.chunk.toolCall, e.chunk.toolCalls)] else []
  }

  /** The tools that were run, and how each ended. */
  function ToolResults(log: seq<Entry>): seq<ToolResult> {
    if log == [] then []
    else
      var e := log[|log| - 1];
      ToolResults(log[..|log| - 1]) + if e.ToolRun? then [ToolResult(e.call, e.outcome)] else []
  }

  /** No batch, or one of which the first calls were run in order, each but the last having returned. */
  ghost predicate RunsOneBatch(between: seq<Entry>) {
    var batches, ran := Batches(between), ToolResults(between);
    && |batches| <= 1
    && RunsInOrder(ran, if batches == [] then [] else batches[0])
    && (ran != [] ==> AllReturned(ran[..|ran| - 1]))
  }

  /** What the next call sends after this one and what happened in between. */
  ghost predicate CarriesResults(earlier: seq<Message>, between: seq<Entry>, later: seq<Message>) {
    var batches, ran := Batches(between), ToolResults(between);
    if batches == [] then later == earlier
    else
      && |ran| == |batches[0]| && AllReturned(ran)
      && exists text :: later == earlier + [Assistant(text, batches[0])] + AnswersOf(ran)
  }

  /** After each streamChat call, until the next: at most one batch, run in order. */
  ghost predicate ToolsRunInBatches(log: seq<Entry>) {
    forall i, n :: 0 <= i < n <= |log| && log[i].Stream? && NoStreamBetween(log, i, n) ==> RunsOneBatch(log[i + 1..n])
  }

  /** Every next call sends what the last one sent, followed by the batch in between and its tools' results. */
  ghost predicate ResultsAreSent(log: seq<Entry>) {
    forall i, j :: 0 <= i < j < |log| && log[i].Stream? && log[j].Stream? && NoStreamBetween(log, i, j)
                   ==> CarriesResults(log[i].messages, log[i + 1..j], log[j].messages)
  }

  /** Nothing is asked for or run before the first call. */
  ghost predicate NothingBeforeFirst(log: seq<Entry>) {
    forall n :: 0 <= n <= |log| && (forall k :: 0 <= k < n ==> !log[k].Stream?)
                ==> Batches(log[..n]) == [] && ToolResults(log[..n]) == []
  }

  lemma FilterSteps(between: seq<Entry>, e: Entry)
    ensures Batches(between + [e]) == Batches(between)
            + (if e.Handled? && e.chunk.ToolRequest? then [RequestedCalls(e.chunk.toolCall, e.chunk.toolCalls)] else [])
    ensures ToolResults(between + [e]) == ToolResults(between)
                                          + (if e.ToolRun? then [ToolResult(e.call, e.outcome)] else [])
  {
    LastOf(between, e);
  }

  lemma NothingYet()
    ensures Batches([]) == [] && ToolResults([]) == []
  {
  }

  /** What the monitor knows of the stretch since the last call. */
  ghost predicate Follows(t: Talk, between: seq<Entry>) {
    && ToolResults(between) == t.ran
    && Batches(between) == (if t.batch == [] then [] else [t.batch])
  }

  lemma FollowsStep(t: Talk, between: seq<Entry>, e: Entry)
    requires Follows(t, between) && TalkStep(t, e).ok && !e.Stream?
    ensures Follows(TalkStep(t, e), between + [e])
  {
    hide Batches, ToolResults;
    FilterSteps(between, e);
  }

  lemma FollowsMeans(t: Talk, between: seq<Entry>)
    requires Follows(t, between) && RunsInOrder(t.ran, t.batch)
    requires t.ran != [] ==> AllReturned(t.ran[..|t.ran| - 1])
    ensures RunsOneBatch(between)
    ensures forall ms :: GoesOn(t, ms) ==> CarriesResults(t.sent.value, between, ms)
  {
    hide Batches, ToolResults;
  }

  lemma {:induction false} SinceLastCall(log: seq<Entry>, i: int)
    requires Sent(log).ok && 0 <= i < |log| && log[i].Stream? && NoStreamBetween(log, i, |log|)
    ensures Follows(Sent(log), log[i + 1..]) && Sent(log).sent == Some(log[i].messages)
  {
    var before, e := log[..|log| - 1], log[|log| - 1];
    if i == |log| - 1 {
      NothingYet();
      assert log[i + 1..] == [];
    } else {
      assert forall k :: 0 <= k < |before| ==> before[k] == log[k];
      SinceLastCall(before, i);
      LastStep(log);
      hide Sent, Batches, ToolResults;
      FollowsStep(Sent(before), before[i + 1..], e);
      assert log[i + 1..] == before[i + 1..] + [e];
    }
  }

  lemma {:induction false} BeforeFirstCall(log: seq<Entry>)
    requires Sent(log).ok && forall k :: 0 <= k < |log| ==> !log[k].Stream?
    ensures Batches(log) == [] && ToolResults(log) == [] && Sent(log).sent.None? && Sent(log).batch == []
  {
    if log != [] {
      BeforeFirstCall(log[..|log| - 1]);
    }
  }

  lemma {:induction false} PrefixIsAccepted(log: seq<Entry>, n: nat)
    requires Sent(log).ok && n <= |log|
    ensures Sent(log[..n]).ok
    ensures n < |log| && log[n].Stream? && Sent(log[..n]).sent.Some? ==> GoesOn(Sent(log[..n]), log[n].messages)
    decreases |log|
  {
    if n == |log| {
      assert log[..n] == log;
    } else {
      var before := log[..|log| - 1];
      assert before[..n] == log[..n];
      if n < |before| {
        PrefixIsAccepted(before, n);
      }
    }
  }

  lemma AcceptedTools(log: seq<Entry>)
    requires Sent(log).ok
    ensures ToolsRunInBatches(log) && ResultsAreSent(log) && NothingBeforeFirst(log)
  {
    hide Batches, ToolResults, Sent, CarriesResults, RunsOneBatch, Follows, GoesOn, RunsInOrder, AllReturned;
    forall i, n | 0 <= i < n <= |log| && log[i].Stream? && NoStreamBetween(log, i, n)
      ensures RunsOneBatch(log[i + 1..n])
      ensures n < |log| && log[n].Stream? ==> CarriesResults(log[i].messages, log[i + 1..n], log[n].messages)
    {
      PrefixIsAccepted(log, n);
      assert log[..n][i + 1..] == log[i + 1..n] && log[..n][i] == log[i];
      SinceLastCall(log[..n], i);
      AcceptedBatches(log[..n]);
      FollowsMeans(Sent(log[..n]), log[i + 1..n]);
    }
    forall n | 0 <= n <= |log| && (forall k :: 0 <= k < n ==> !log[k].Stream?)
      ensures Batches(log[..n]) == [] && ToolResults(log[..n]) == []
    {
      PrefixIsAccepted(log, n);
      BeforeFirstCall(log[..n]);
    }
  }

  /**
   Between two streamChat calls at most one batch is requested and its calls are run in order,
   up to the first that does not return; the later call sends what the earlier one sent,
   followed by the batch and, for its i-th call, exactly what the i-th tool returned.
   */
  lemma ToolResultsAreSent(cfg: Config, script: Script, breaker: seq<CB.Call>)
    ensures var log := Run(cfg, script, breaker).state.log;
      ToolsRunInBatches(log) && ResultsAreSent(log) && NothingBeforeFirst(log)
  {
    hide Run, ToolsRunInBatches, ResultsAreSent, NothingBeforeFirst;
    HistoryIsAccepted(cfg, script, breaker);
    AcceptedTools(Run(cfg, script, breaker).state.log);
  }

  // ---------- What the assistant said ----------

  lemma GoingOnSays(history: seq<Message>, t: Talk, ms: seq<Message>)
    requires GoesOn(t, ms) && RunsInOrder(t.ran, t.batch) && history <= t.sent.value && Unsent(t) == ""
    ensures history <= ms
    ensures AssistantText(ms[|history|..]) == AssistantText(t.sent.value[|history|..]) + t.text
  {
    var tail := t.sent.value[|history|..];
    if t.batch == [] {
      assert AssistantText(tail) + "" == AssistantText(tail);
    } else {
      BlockAdds(tail, t.text, t.batch, AnswersOf(t.ran));
      assert ms[|history|..] == tail + [Assistant(t.text, t.batch)] + AnswersOf(t.ran);
    }
  }

  /** The assistant's text in the last conversation sent, and what was said since. */
  ghost predicate SaidSoFar(history: seq<Message>, t: Talk, said: string) {
    if t.sent.None? then said == "" && t.text == ""
    else history <= t.sent.value && said == AssistantText(t.sent.value[|history|..]) + t.text
  }

  lemma SayingStep(history: seq<Message>, t: Talk, e: Entry, said: string)
    requires SaidSoFar(history, t, said) && TalkStep(t, e).ok && RunsInOrder(t.ran, t.batch)
    requires e.Stream? && t.sent.None? ==> e.messages == history
    ensures SaidSoFar(history, TalkStep(t, e), said + if e.Handled? && e.chunk.Token? then e.chunk.text else "")
    ensures e.Stream? ==> history <= e.messages && AssistantText(e.messages[|history|..]) == said
  {
    assert said + "" == said;
    if e.Stream? {
      if t.sent.None? {
        assert history[|history|..] == [];
        assert AssistantText([]) == "" && said == AssistantText([]) + "";
      } else {
        GoingOnSays(history, t, e.messages);
        assert AssistantText(e.messages[|history|..]) + "" == said;
      }
    } else if e.Handled? && e.chunk.Token? {
      var spoken := AssistantText(t.sent.value[|history|..]);
      assert (spoken + t.text) + e.chunk.text == spoken + (t.text + e.chunk.text);
    }
  }

  /** Every call's conversation, after the input history, says exactly what the tokens so far said. */
  ghost predicate ConversationsSayTokens(cfg: Config, log: seq<Entry>) {
    forall j :: 0 <= j < |log| && log[j].Stream? ==>
      && cfg.messages <= log[j].messages
      && AssistantText(log[j].messages[|cfg.messages|..]) == TokenText(Chunks(log[..j]))
  }

  lemma TokenTextStep(log: seq<Entry>)
    requires log != []
    ensures var before, e := log[..|log| - 1], log[|log| - 1];
      TokenText(Chunks(log)) == TokenText(Chunks(before)) + if e.Handled? && e.chunk.Token? then e.chunk.text else ""
  {
    var before, e := log[..|log| - 1], log[|log| - 1];
    ChunksStep(log);
    var heard := TokenTexts(Chunks(before));
    if e.Handled? && e.chunk.Token? {
      LastOf(heard, e.chunk.text);
    } else {
      assert heard + [] == heard && Joined(heard) + "" == Joined(heard);
    }
  }

  lemma {:induction false} CallsSayTokens(cfg: Config, log: seq<Entry>)
    requires Sent(log).ok && (Sent(log).first.Some? ==> Sent(log).first.value == cfg.messages)
    ensures SaidSoFar(cfg.messages, Sent(log), TokenText(Chunks(log)))
    ensures ConversationsSayTokens(cfg, log)
  {
    if log != [] {
      var before, e := log[..|log| - 1], log[|log| - 1];
      LastStep(log);
      FirstIsSent(before);
      FirstStays(Sent(before), e);
      hide Sent, Chunks, TokenText, SaidSoFar, RunsInOrder, ConversationsSayTokens, TalkStep, OrderStep, ThinkingStep,
        SpokenStep, OriginStep, TrafficStep, MeterStep, Ordered, Thoughts, Speech, Origins, Gated, Metered, Events;
      CallsSayTokens(cfg, before);
      AcceptedBatches(before);
      TokenTextStep(log);
      SayingStep(cfg.messages, Sent(before), e, TokenText(Chunks(before)));
      OneMoreCall(cfg, log);
    }
  }

  lemma FirstStays(t: Talk, e: Entry)
    requires TalkStep(t, e).ok && (t.first.Some? <==> t.sent.Some?)
    ensures t.ok && (t.first.Some? ==> TalkStep(t, e).first == t.first)
    ensures e.Stream? && t.sent.None? ==> TalkStep(t, e).first == Some(e.messages)
  {
  }

  lemma OneMoreCall(cfg: Config, log: seq<Entry>)
    requires log != [] && ConversationsSayTokens(cfg, log[..|log| - 1])
    requires var e := log[|log| - 1];
      e.Stream? ==> cfg.messages <= e.messages
                    && AssistantText(e.messages[|cfg.messages|..]) == TokenText(Chunks(log[..|log| - 1]))
    ensures ConversationsSayTokens(cfg, log)
  {
    hide AssistantText, TokenText, Chunks;
    var before := log[..|log| - 1];
    assert forall j :: 0 <= j <= |before| ==> log[..j] == before[..j];
  }

  /** Every call's conversation is the input history and answered requests that say the tokens heard so far. */
  lemma ConversationsSayWhatWasHeard(cfg: Config, script: Script, breaker: seq<CB.Call>)
    ensures ConversationsSayTokens(cfg, Run(cfg, script, breaker).state.log)
  {
    hide AtHead, ConversationsSayTokens;
    var log := Run(cfg, script, breaker).state.log;
    if Begins(script) {
      RunKeeps(cfg, script, breaker);
      FirstIsSent(log);
    } else {
      RefusedRun(cfg, script, breaker);
      NothingSent(log);
    }
    CallsSayTokens(cfg, log);
  }
}
