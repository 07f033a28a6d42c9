/**
 packages/ai-runtime/src/provider-stream-runtime.ts: one attempt's cancellation state.

 Whatever the event loop does to an attempt reaches it as a sequence of signals: the
 parent signal aborts, or the idle timer fires. The controller is aborted as soon as an
 outcome is set, so the runtime needs one field for both.
 */
module StreamRuntime {
  import opened Wrappers
  import opened RunTypes

  datatype Signal = ParentAbort | IdleTimeout

  datatype Outcome = Cancelled | TimedOut

  function OutcomeOf(s: Signal): Outcome {
    if s.ParentAbort? then Cancelled else TimedOut
  }

  /** How the adapter's iterator answers one pull, with the signals around that answer. */
  datatype Answer =
    | Yields(chunk: Chunk, late: seq<Signal>)             // signals between the answer and its use
    | Ends(late: seq<Signal>)
    | Fails(error: ProviderError, late: seq<Signal>)
    | Interrupted(first: Signal, more: seq<Signal>)       // a signal beats the answer

  /** What `next` settles with. */
  datatype Next = Value(chunk: Chunk) | Done | Rejected(error: ProviderError)

  // ---------- The latch ----------

  /** The first signal decides, and nothing after it counts. */
  function Latched(outcome: Option<Outcome>, signals: seq<Signal>): Option<Outcome> {
    if outcome.Some? || signals == [] then outcome else Some(OutcomeOf(signals[0]))
  }

  lemma LatchComposes(outcome: Option<Outcome>, a: seq<Signal>, b: seq<Signal>)
    ensures Latched(Latched(outcome, a), b) == Latched(outcome, a + b)
    ensures outcome.Some? ==> Latched(outcome, a) == outcome
  {
  }

  function SignalsOf(answer: Answer): seq<Signal> {
    match answer
    case Yields(_, late) => late
    case Ends(late) => late
    case Fails(_, late) => late
    case Interrupted(first, more) => [first] + more
  }

  /** The settled result and every signal delivered before the caller goes on. */
  function NextOf(outcome: Option<Outcome>, answer: Answer): (Next, Option<Outcome>) {
    if outcome.Some? then (Rejected(Unclassified), outcome)
    else
      var result := match answer
        case Yields(chunk, _) => Value(chunk)
        case Ends(_) => Done
        case Fails(error, _) => Rejected(error)
        case Interrupted(_, _) => Rejected(Unclassified);
      (result, Latched(outcome, SignalsOf(answer)))
  }

  /** After an outcome is latched no chunk is ever delivered again. */
  lemma NoChunkAfterOutcome(outcome: Option<Outcome>, earlier: seq<Signal>, answer: Answer)
    requires Latched(outcome, earlier).Some?
    ensures NextOf(Latched(outcome, earlier), answer).0.Rejected?
    ensures NextOf(Latched(outcome, earlier), answer).1 == Latched(outcome, earlier)
  {
  }

  /** One pull of an attempt: the signals before it, and how the iterator answers. */
  datatype Asked = Asked(before: seq<Signal>, answer: Answer)

  /** What an attempt's pulls settle with, each with the outcome after it. */
  function Settled(outcome: Option<Outcome>, pulls: seq<Asked>): (r: seq<(Next, Option<Outcome>)>)
    ensures |r| == |pulls|
  {
    if pulls == [] then []
    else
      var earlier := Settled(outcome, pulls[..|pulls| - 1]);
      var before := if earlier == [] then outcome else earlier[|earlier| - 1].1;
      earlier + [NextOf(Latched(before, pulls[|pulls| - 1].before), pulls[|pulls| - 1].answer)]
  }

  /** Nothing has been signalled before the answer of the pull at position i. */
  predicate Unsignalled(outcome: Option<Outcome>, pulls: seq<Asked>, i: nat)
    requires i < |pulls|
  {
    && outcome.None? && pulls[i].before == []
    && forall k :: 0 <= k < i ==> pulls[k].before == [] && SignalsOf(pulls[k].answer) == []
  }

  /**
   A pull delivers a chunk exactly when the iterator yields one and nothing at all has been
   signalled before that: the first signal, of whatever kind, ends the attempt's chunks.
   */
  lemma {:induction false} ChunksComeBeforeSignals(outcome: Option<Outcome>, pulls: seq<Asked>, i: nat)
    requires i < |pulls|
    ensures var r := Settled(outcome, pulls);
      && (r[i].0.Value? <==> Unsignalled(outcome, pulls, i) && pulls[i].answer.Yields?)
      && (r[i].0.Value? ==> r[i].0.chunk == pulls[i].answer.chunk)
      && (r[i].1.None? <==> Unsignalled(outcome, pulls, i) && SignalsOf(pulls[i].answer) == [])
  {
    var init, last := pulls[..|pulls| - 1], pulls[|pulls| - 1];
    SettledSplits(outcome, pulls);
    hide NextOf, Latched, SignalsOf, Settled;
    if i < |init| {
      ChunksComeBeforeSignals(outcome, init, i);
      UnsignalledEarlier(outcome, pulls, i);
    } else {
      if i > 0 {
        ChunksComeBeforeSignals(outcome, init, i - 1);
      }
      UnsignalledLast(outcome, pulls);
      hide Unsignalled;
      OnePull(if i == 0 then outcome else Settled(outcome, init)[i - 1].1, last);
    }
  }

  lemma SettledSplits(outcome: Option<Outcome>, pulls: seq<Asked>)
    requires pulls != []
    ensures var n := |pulls| - 1; var earlier := Settled(outcome, pulls[..n]);
      && Settled(outcome, pulls)[..n] == earlier
      && Settled(outcome, pulls)[n] ==
         NextOf(Latched(if n == 0 then outcome else earlier[n - 1].1, pulls[n].before), pulls[n].answer)
  {
    hide NextOf, Latched;
  }

  lemma UnsignalledEarlier(outcome: Option<Outcome>, pulls: seq<Asked>, i: nat)
    requires i < |pulls| - 1
    ensures Unsignalled(outcome, pulls, i) <==> Unsignalled(outcome, pulls[..|pulls| - 1], i)
  {
    hide SignalsOf;
    var init := pulls[..|pulls| - 1];
    assert forall k :: 0 <= k <= i ==> init[k] == pulls[k];
  }

  lemma UnsignalledLast(outcome: Option<Outcome>, pulls: seq<Asked>)
    requires pulls != []
    ensures var n := |pulls| - 1; var init := pulls[..n];
      Unsignalled(outcome, pulls, n) <==>
      pulls[n].before == [] &&
      if n == 0 then outcome.None? else Unsignalled(outcome, init, n - 1) && SignalsOf(init[n - 1].answer) == []
  {
    hide SignalsOf;
    var n := |pulls| - 1;
    assert forall k :: 0 <= k < n ==> pulls[..n][k] == pulls[k];
  }

  lemma OnePull(outcome: Option<Outcome>, pull: Asked)
    ensures var r := NextOf(Latched(outcome, pull.before), pull.answer);
      && (r.0.Value? <==> outcome.None? && pull.before == [] && pull.answer.Yields?)
      && (r.0.Value? ==> r.0.chunk == pull.answer.chunk)
      && (r.1.None? <==> outcome.None? && pull.before == [] && SignalsOf(pull.answer) == [])
  {
    if Latched(outcome, pull.before).Some? {
      NoChunkAfterOutcome(outcome, pull.before, pull.answer);
    }
  }

  class ProviderStreamRuntime {
    var outcome: Option<Outcome>
    var aborted: bool
    ghost var signals: seq<Signal>
    ghost const born: Option<Outcome>

    ghost predicate Valid()
      reads this
    {
      && (aborted <==> outcome.Some?)
      && outcome == Latched(born, signals)
    }

    constructor (parentAborted: bool)
      ensures Valid() && signals == []
      ensures outcome == born == if parentAborted then Some(Cancelled) else None
    {
      outcome := if parentAborted then Some(Cancelled) else None;
      aborted := parentAborted;
      signals := [];
      born := if parentAborted then Some(Cancelled) else None;
    }

    method Abort(signal: Signal)
      requires Valid()
      modifies this
      ensures Valid() && signals == old(signals) + [signal]
      ensures old(outcome).Some? ==> outcome == old(outcome)
    {
      signals := signals + [signal];
      LatchComposes(born, old(signals), [signal]);
      if outcome.None? {
        outcome := Some(OutcomeOf(signal));
      }
      if !aborted {
        aborted := true;
      }
    }

    method Deliver(arriving: seq<Signal>)
      requires Valid()
      modifies this
      ensures Valid() && signals == old(signals) + arriving
      ensures outcome == Latched(old(outcome), arriving)
    {
      for i := 0 to |arriving|
        invariant Valid() && signals == old(signals) + arriving[..i]
      {
        Abort(arriving[i]);
        assert old(signals) + arriving[..i + 1] == (old(signals) + arriving[..i]) + [arriving[i]];
      }
      assert arriving[..|arriving|] == arriving;
      LatchComposes(born, old(signals), arriving);
    }

    /** An aborted runtime rejects without asking the iterator; otherwise answer and signals race. */
    method NextChunk(answer: Answer) returns (r: Next)
      requires Valid()
      modifies this
      ensures Valid()
      ensures (r, outcome) == NextOf(old(outcome), answer)
    {
      if aborted {
        return Rejected(Unclassified);
      }
      Deliver(SignalsOf(answer));
      match answer
      case Yields(chunk, _) => r := Value(chunk);
      case Ends(_) => r := Done;
      case Fails(error, _) => r := Rejected(error);
      case Interrupted(_, _) => r := Rejected(Unclassified);
    }
  }
}
