/**
 packages/ai-runtime/src/reasoning-summary-tracker.ts: an attempt's buffer for a
 provider-designated safe summary.
 */
module ReasoningSummary {
  import opened Wrappers

  const MAX_SUMMARY_CHARACTERS := 20_000
  const MAX_DURATION_MS := 86_400_000
  const MAX_REASONING_TOKENS := 200_000
  const MAX_SUMMARY_DELTAS := 64
  const MAX_DELTA_CHARACTERS := 4_096   // what reasoningChunkEventData leaves of one text

  datatype Metadata = Metadata(durationMs: int, reasoningTokens: Option<int>)

  datatype SummaryEvent =
    | SummaryText(text: string)
    | SummaryKept(characterCount: int, metadata: Metadata)
    | SummaryDiscarded(metadata: Metadata)

  /** What the tracker has seen: every text, the first one's time, and whether it was settled. */
  datatype Summary = Summary(texts: seq<string>, startedAt: Option<int>, finished: bool)

  const NO_SUMMARY := Summary([], None, false)

  function Characters(texts: seq<string>): nat {
    if texts == [] then 0 else Characters(texts[..|texts| - 1]) + |texts[|texts| - 1]|
  }

  /** The simple rule the incremental buffer implements. */
  predicate Fits(texts: seq<string>) {
    |texts| <= MAX_SUMMARY_DELTAS && Characters(texts) <= MAX_SUMMARY_CHARACTERS
  }

  function Observed(s: Summary, text: string, now: int): Summary {
    s.(texts := s.texts + [text], startedAt := if s.startedAt.Some? then s.startedAt else Some(now))
  }

  function BoundedTokens(tokens: Option<int>): Option<int> {
    if tokens.Some? && 0 <= tokens.value <= MAX_REASONING_TOKENS then tokens else None
  }

  predicate Bounded(m: Metadata) {
    0 <= m.durationMs <= MAX_DURATION_MS
        && (m.reasoningTokens.Some? ==> 0 <= m.reasoningTokens.value <= MAX_REASONING_TOKENS)
  }

  function MetadataAt(startedAt: int, tokens: Option<int>, now: int): (m: Metadata)
    ensures Bounded(m)
    ensures startedAt <= now <= startedAt + MAX_DURATION_MS ==> m.durationMs == now - startedAt
    ensures now < startedAt ==> m.durationMs == 0
    ensures now > startedAt + MAX_DURATION_MS ==> m.durationMs == MAX_DURATION_MS
    ensures m.reasoningTokens.Some? <==> tokens.Some? && 0 <= tokens.value <= MAX_REASONING_TOKENS
    ensures m.reasoningTokens.Some? ==> m.reasoningTokens == tokens
  {
    Metadata(Min(MAX_DURATION_MS, Max(0, now - startedAt)), BoundedTokens(tokens))
  }

  function Texts(texts: seq<string>): (r: seq<SummaryEvent>)
    ensures |r| == |texts| && forall i :: 0 <= i < |r| ==> r[i] == SummaryText(texts[i])
  {
    if texts == [] then [] else Texts(texts[..|texts| - 1]) + [SummaryText(texts[|texts| - 1])]
  }

  predicate Pending(s: Summary) {
    s.startedAt.Some? && !s.finished
  }

  function Settled(s: Summary): Summary {
    if Pending(s) then s.(finished := true) else s
  }

  /** The events that settle a summary. */
  function FinishEvents(s: Summary, keep: bool, tokens: Option<int>, now: int): seq<SummaryEvent> {
    if !Pending(s) then []
    else
      var metadata := MetadataAt(s.startedAt.value, tokens, now);
      if keep && Fits(s.texts)
      then Texts(s.texts) + [SummaryKept(Characters(s.texts), metadata)]
      else [SummaryDiscarded(metadata)]
  }

  lemma ObservingAdds(texts: seq<string>, text: string)
    ensures Characters(texts + [text]) == Characters(texts) + |text|
    ensures Fits(texts + [text]) ==> Fits(texts)
    ensures Characters([]) == 0
  {
    assert (texts + [text])[..|texts|] == texts;
  }

  /** Once too much was buffered, no later text can bring the summary back. */
  lemma {:induction false} OverflowIsFinal(texts: seq<string>, more: seq<string>)
    ensures Fits(texts + more) ==> Fits(texts)
  {
    if more == [] {
      assert texts + more == texts;
    } else {
      var earlier := more[..|more| - 1];
      assert texts + more == (texts + earlier) + [more[|more| - 1]];
      ObservingAdds(texts + earlier, more[|more| - 1]);
      OverflowIsFinal(texts, earlier);
    }
  }

  /** Text leaves the tracker only as the whole summary, in order, followed by its own count. */
  lemma SettledOnce(s: Summary, keep: bool, again: bool, tokens: Option<int>, now: int)
    ensures FinishEvents(Settled(s), again, tokens, now) == []
    ensures Pending(s) ==>
            var events := FinishEvents(s, keep, tokens, now);
            && |events| >= 1 && !events[|events| - 1].SummaryText?
            && (forall i :: 0 <= i < |events| - 1 ==> events[i] == SummaryText(s.texts[i]))
            && (events[|events| - 1].SummaryKept? <==> keep && Fits(s.texts))
            && (events[|events| - 1].SummaryKept? ==>
                  |events| == |s.texts| + 1 && events[|events| - 1].characterCount == Characters(s.texts))
            && (events[|events| - 1].SummaryDiscarded? ==> |events| == 1)
  {
  }

  class ReasoningSummaryTracker {
    var parts: seq<string>
    var characters: nat
    var startedAt: Option<int>
    var finished: bool
    var overflowed: bool
    ghost var texts: seq<string>

    ghost predicate Valid()
      reads this
    {
      && overflowed == !Fits(texts)
      && parts == (if Fits(texts) then texts else [])
      && characters == Characters(parts)
    }

    ghost function View(): Summary
      reads this
    {
      Summary(texts, startedAt, finished)
    }

    constructor ()
      ensures Valid() && View() == NO_SUMMARY
    {
      parts, characters, startedAt, finished, overflowed, texts := [], 0, None, false, false, [];
    }

    method Observe(text: string, now: int)
      requires Valid()
      modifies this
      ensures Valid() && View() == Observed(old(View()), text, now)
    {
      hide Characters;
      ObservingAdds(texts, text);
      texts := texts + [text];
      if startedAt.None? {
        startedAt := Some(now);
      }
      if |parts| >= MAX_SUMMARY_DELTAS || characters + |text| > MAX_SUMMARY_CHARACTERS {
        overflowed := true;
        parts := [];
        characters := 0;
        return;
      }
      if overflowed {
        return;
      }
      parts := parts + [text];
      characters := characters + |text|;
    }

    method Finish(keep: bool, reasoningTokens: Option<int>, now: int) returns (events: seq<SummaryEvent>)
      requires Valid()
      modifies this`finished
      ensures Valid() && View() == Settled(old(View()))
      ensures events == FinishEvents(old(View()), keep, reasoningTokens, now)
    {
      if startedAt.None? || finished {
        return [];
      }
      finished := true;
      var metadata := MetadataAt(startedAt.value, reasoningTokens, now);
      if !keep || overflowed {
        return [SummaryDiscarded(metadata)];
      }
      events := Texts(parts) + [SummaryKept(characters, metadata)];
    }
  }
}
