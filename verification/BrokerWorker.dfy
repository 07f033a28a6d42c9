/**
 Claim, then settle: `brokerKnowledgeWorkerClient` of packages/cli/src/broker-worker-clients.ts
 with `runKnowledgeExtractionWorker` of packages/cli/src/knowledge-worker.ts. The client's
 token map decides who may settle; `calls` is what the broker is asked, with its answers.
 */
module BrokerWorker {
  import opened Wrappers

  // ---------- What the broker answers ----------

  datatype Source = Source(id: Option<string>)

  datatype ClaimAnswer =
    | ClaimRejected(error: string)
    | NothingToClaim
    | Claimed(token: Option<string>, source: Option<Source>)

  /** `reason` is the thrown error's message, if an Error was thrown. */
  datatype CompleteAnswer = Completes(result: string) | Refuses(reason: Option<string>)

  datatype BrokerCall =
    | Claim(leaseSeconds: int, claimAnswer: ClaimAnswer)
    | Complete(token: string, success: bool, errorCode: Option<string>, completeAnswer: CompleteAnswer)

  const CLAIM_INVALID := "worker_broker_claim_invalid"
  const TOKEN_MISSING := "worker_broker_claim_token_missing"

  // ---------- The client ----------

  datatype ClaimResult = NoWork | Work(sourceId: string, claimToken: string) | ClaimThrew(error: string)

  /** What claimExtraction makes of an answer: a claim counts only with a source, its id and a token. */
  function ResultOf(answer: ClaimAnswer): ClaimResult {
    match answer
    case ClaimRejected(error) => ClaimThrew(error)
    case NothingToClaim => NoWork
    case Claimed(token, source) =>
      if source.None? || token.None? || source.value.id.None? then ClaimThrew(CLAIM_INVALID)
      else Work(source.value.id.value, token.value)
  }

  /** Work is exactly an answer with a source, its id and a token, and no other answer of a claim is taken for it. */
  lemma WorkIsComplete(answer: ClaimAnswer, sourceId: string, token: string)
    ensures ResultOf(answer) == Work(sourceId, token) <==> answer == Claimed(Some(token), Some(Source(Some(sourceId))))
    ensures ResultOf(answer).NoWork? <==> answer.NothingToClaim?
    ensures answer.Claimed? && !ResultOf(answer).Work? ==> ResultOf(answer) == ClaimThrew("worker_broker_claim_invalid")
    ensures answer.ClaimRejected? ==> ResultOf(answer) == ClaimThrew(answer.error)
  {
    if answer.Claimed? && answer.source.Some? {
      assert answer.source.value == Source(answer.source.value.id);
    }
  }

  class KnowledgeClient {
    var tokens: map<string, string>
    var calls: seq<BrokerCall>

    constructor ()
      ensures tokens == map[] && calls == []
    {
      tokens, calls := map[], [];
    }

    method RememberClaim(token: Option<string>, workId: Option<string>) returns (ok: bool)
      modifies this`tokens
      ensures ok == (token.Some? && workId.Some?)
      ensures tokens == if ok then old(tokens)[workId.value := token.value] else old(tokens)
    {
      if token.None? || workId.None? {
        return false;
      }
      tokens := tokens[workId.value := token.value];
      return true;
    }

    method ClaimExtraction(leaseSeconds: int, answer: ClaimAnswer) returns (result: ClaimResult)
      modifies this
      ensures calls == old(calls) + [Claim(leaseSeconds, answer)]
      ensures result == ResultOf(answer)
      ensures tokens == if result.Work? then old(tokens)[result.sourceId := result.claimToken] else old(tokens)
    {
      calls := calls + [Claim(leaseSeconds, answer)];
      match answer
      case ClaimRejected(error) => return ClaimThrew(error);
      case NothingToClaim => return NoWork;
      case Claimed(token, source) =>
        if source.None? {
          return ClaimThrew(CLAIM_INVALID);
        }
        var ok := RememberClaim(token, source.value.id);
        if !ok {
          return ClaimThrew(CLAIM_INVALID);
        }
        return Work(source.value.id.value, token.value);
    }

    /** Only a remembered token reaches the broker, and it is forgotten whatever the broker answers. */
    method CompleteExtraction(sourceId: string, success: bool, errorCode: Option<string>, answer: CompleteAnswer)
      returns (result: CompleteAnswer)
      modifies this
      ensures sourceId !in tokens && tokens == old(tokens) - {sourceId}
      ensures sourceId in old(tokens) ==>
                calls == old(calls) + [Complete(old(tokens)[sourceId], success, errorCode, answer)] && result == answer
      ensures sourceId !in old(tokens) ==> calls == old(calls) && result == Refuses(Some(TOKEN_MISSING))
    {
      if sourceId !in tokens {
        return Refuses(Some(TOKEN_MISSING));
      }
      calls := calls + [Complete(tokens[sourceId], success, errorCode, answer)];
      tokens := tokens - {sourceId};
      return answer;
    }
  }

  // ---------- The environment ----------

  /** One turn of the inner loop: the signal before it, and the broker's answers. */
  datatype SourceScript = SourceScript(aborted: bool, claim: ClaimAnswer, complete: CompleteAnswer)

  /** One iteration: the signal before it, its sources, and the signal after the report. */
  datatype Turn = Turn(abortedBefore: bool, sources: nat -> SourceScript, abortedAfter: bool)

  datatype Input = Input(leaseSeconds: Option<int>, maxIterations: Option<int>, maxSourcesPerIteration: Option<int>) {
    function Lease(): int {
      leaseSeconds.GetOr(300)
    }

    function Maximum(): int {
      maxSourcesPerIteration.GetOr(10)
    }
  }

  datatype Failure = Failure(error: string, sourceId: string)

  datatype Report = Report(iteration: nat, claimedCount: nat, results: seq<string>, errors: seq<Failure>)

  // ---------- What the worker does, as a function ----------

  datatype Batch = Batch(calls: seq<BrokerCall>, claimedCount: nat, results: seq<string>, errors: seq<Failure>,
                         threw: Option<string>)

  function MessageOf(reason: Option<string>): string {
    reason.GetOr("Unknown extraction error.")
  }

  /** A claimed source: one completion, and its answer recorded. */
  function SettleSource(b: Batch, sourceId: string, token: string, lease: int, script: SourceScript): Batch {
    var calls := b.calls + [Claim(lease, script.claim), Complete(token, true, None, script.complete)];
    match script.complete
    case Completes(result) => Batch(calls, b.claimedCount + 1, b.results + [result], b.errors, b.threw)
    case Refuses(reason) =>
      Batch(calls, b.claimedCount + 1, b.results, b.errors + [Failure(MessageOf(reason), sourceId)], b.threw)
  }

  function RunBatch(input: Input, turn: Turn, index: nat, b: Batch): Batch
    decreases input.Maximum() - index
  {
    if index >= input.Maximum() || turn.sources(index).aborted then b
    else
      var script := turn.sources(index);
      match ResultOf(script.claim)
      case NoWork => b.(calls := b.calls + [Claim(input.Lease(), script.claim)])
      case ClaimThrew(error) => b.(calls := b.calls + [Claim(input.Lease(), script.claim)], threw := Some(error))
      case Work(sourceId, token) =>
        RunBatch(input, turn, index + 1, SettleSource(b, sourceId, token, input.Lease(), script))
  }

  datatype Status = Running | Returned | Threw(error: string)

  datatype Outcome = Outcome(calls: seq<BrokerCall>, reports: seq<Report>, status: Status)

  function ReportOf(iteration: nat, b: Batch): Report {
    Report(iteration, b.claimedCount, b.results, b.errors)
  }

  /** The iterations from `i` on; a run whose script is used up is still running. */
  function RunTurns(input: Input, turns: seq<Turn>, i: nat, calls: seq<BrokerCall>, reports: seq<Report>): Outcome
    requires i <= |turns|
    decreases |turns| - i
  {
    if i == |turns| then Outcome(calls, reports, Running)
    else if turns[i].abortedBefore then Outcome(calls, reports, Returned)
    else
      var b := RunBatch(input, turns[i], 0, Batch(calls, 0, [], [], None));
      if b.threw.Some? then Outcome(b.calls, reports, Threw(b.threw.value))
      else
        var reported := reports + [ReportOf(i + 1, b)];
        if (input.maxIterations.Some? && i + 1 >= input.maxIterations.value) || turns[i].abortedAfter
        then Outcome(b.calls, reported, Returned)
        else RunTurns(input, turns, i + 1, b.calls, reported)
  }

  // ---------- The worker ----------

  /** The inner loop of one iteration. */
  method ClaimAndSettle(client: KnowledgeClient, input: Input, turn: Turn) returns (b: Batch)
    requires client.tokens == map[]
    modifies client
    ensures b == RunBatch(input, turn, 0, Batch(old(client.calls), 0, [], [], None))
    ensures client.calls == b.calls && client.tokens == map[]
  {
    var results: seq<string>, errors: seq<Failure>, claimedCount: nat := [], [], 0;
    ghost var start := Batch(client.calls, 0, [], [], None);
    var index := 0;
    while index < input.Maximum()
      invariant 0 <= index && client.tokens == map[]
      invariant RunBatch(input, turn, 0, start)
                == RunBatch(input, turn, index, Batch(client.calls, claimedCount, results, errors, None))
      decreases input.Maximum() - index
    {
      var script := turn.sources(index);
      if script.aborted {
        break;
      }
      ghost var before := client.calls;
      var claim := client.ClaimExtraction(input.Lease(), script.claim);
      if claim.ClaimThrew? {
        return Batch(client.calls, claimedCount, results, errors, Some(claim.error));
      }
      if claim.NoWork? {
        return Batch(client.calls, claimedCount, results, errors, None);
      }
      claimedCount := claimedCount + 1;
      var completion := client.CompleteExtraction(claim.sourceId, true, None, script.complete);
      assert client.calls ==
             before + [Claim(input.Lease(), script.claim), Complete(claim.claimToken, true, None, script.complete)];
      if completion.Completes? {
        results := results + [completion.result];
      } else {
        errors := errors + [Failure(MessageOf(completion.reason), claim.sourceId)];
        var again := client.CompleteExtraction(claim.sourceId, false, Some("knowledge_extraction_failed"),
            script.complete);
      }
      index := index + 1;
    }
    return Batch(client.calls, claimedCount, results, errors, None);
  }

  method RunKnowledgeExtractionWorker(client: KnowledgeClient, input: Input, turns: seq<Turn>)
      returns (outcome: Outcome)
    requires client.tokens == map[]
    modifies client
    ensures outcome == RunTurns(input, turns, 0, old(client.calls), [])
    ensures client.calls == outcome.calls && client.tokens == map[]
  {
    var iteration: nat, reports: seq<Report> := 0, [];
    ghost var whole := RunTurns(input, turns, 0, client.calls, []);
    while iteration < |turns| && !turns[iteration].abortedBefore
      invariant iteration <= |turns| && client.tokens == map[]
      invariant whole == RunTurns(input, turns, iteration, client.calls, reports)
    {
      var turn := turns[iteration];
      iteration := iteration + 1;
      var b := ClaimAndSettle(client, input, turn);
      if b.threw.Some? {
        return Outcome(client.calls, reports, Threw(b.threw.value));
      }
      reports := reports + [ReportOf(iteration, b)];
      if input.maxIterations.Some? && iteration >= input.maxIterations.value {
        return Outcome(client.calls, reports, Returned);
      }
      if turn.abortedAfter {
        return Outcome(client.calls, reports, Returned);
      }
    }
    outcome := Outcome(client.calls, reports, if iteration == |turns| then Running else Returned);
  }

  // ---------- What holds of every run ----------

  /** A claim that gives the worker something to do. */
  predicate GivesWork(c: BrokerCall) {
    c.Claim? && ResultOf(c.claimAnswer).Work?
  }

  /** This call completes that claim, as a success and with the claim's own token. */
  predicate Settles(c: BrokerCall, claim: BrokerCall) {
    GivesWork(claim) && c.Complete? && c.token == ResultOf(claim.claimAnswer).claimToken && c.success
        && c.errorCode.None?
  }

  /** Every claim that gives work is settled by the very next call, and nothing else is ever completed. */
  ghost predicate SettledOnce(calls: seq<BrokerCall>) {
    && (forall k :: 0 <= k < |calls| && GivesWork(calls[k]) ==> k + 1 < |calls| && Settles(calls[k + 1], calls[k]))
    && (forall k :: 0 <= k < |calls| && calls[k].Complete? ==> k > 0 && Settles(calls[k], calls[k - 1]))
  }

  function Claims(calls: seq<BrokerCall>): nat {
    if calls == [] then 0 else Claims(calls[..|calls| - 1]) + if GivesWork(calls[|calls| - 1]) then 1 else 0
  }

  function Refusals(calls: seq<BrokerCall>): nat {
    if calls == [] then 0
    else Refusals(calls[..|calls| - 1])
         + if calls[|calls| - 1].Complete? && calls[|calls| - 1].completeAnswer.Refuses? then 1 else 0
  }

  lemma OneCallMore(calls: seq<BrokerCall>, c: BrokerCall)
    ensures Claims(calls + [c]) == Claims(calls) + (if GivesWork(c) then 1 else 0)
    ensures Refusals(calls + [c]) == Refusals(calls) + (if c.Complete? && c.completeAnswer.Refuses? then 1 else 0)
  {
    assert (calls + [c])[..|calls|] == calls;
  }

  lemma SettledTwoMore(calls: seq<BrokerCall>, claim: BrokerCall, complete: BrokerCall)
    requires SettledOnce(calls) && Settles(complete, claim)
    ensures SettledOnce(calls + [claim, complete])
    ensures Claims(calls + [claim, complete]) == Claims(calls) + 1
    ensures Refusals(calls + [claim, complete]) == Refusals(calls) + (if complete.completeAnswer.Refuses? then 1 else 0)
  {
    OneCallMore(calls, claim);
    OneCallMore(calls + [claim], complete);
    assert calls + [claim, complete] == calls + [claim] + [complete];
    hide Claims, Refusals;
    var all := calls + [claim, complete];
    assert forall k :: 0 <= k < |calls| ==> all[k] == calls[k];
  }

  lemma SettledIdleClaim(calls: seq<BrokerCall>, claim: BrokerCall)
    requires SettledOnce(calls) && claim.Claim? && !GivesWork(claim)
    ensures SettledOnce(calls + [claim])
  {
    assert forall k :: 0 <= k < |calls| ==> (calls + [claim])[k] == calls[k];
  }

  /** One iteration settles what it claims and counts it once, as extracted or as failed. */
  lemma {:induction false} BatchSettles(input: Input, turn: Turn, index: nat, b: Batch)
    requires SettledOnce(b.calls)
    ensures var r := RunBatch(input, turn, index, b);
      && SettledOnce(r.calls)
      && r.claimedCount - b.claimedCount == Claims(r.calls) - Claims(b.calls)
      && |r.errors| - |b.errors| == Refusals(r.calls) - Refusals(b.calls)
      && r.claimedCount - b.claimedCount == (|r.results| - |b.results|) + (|r.errors| - |b.errors|)
      && r.claimedCount <= b.claimedCount + Max(0, input.Maximum() - index)
    decreases input.Maximum() - index
  {
    hide SettledOnce, Claims, Refusals;
    if index < input.Maximum() && !turn.sources(index).aborted {
      var script := turn.sources(index);
      var claim := Claim(input.Lease(), script.claim);
      match ResultOf(script.claim)
      case Work(sourceId, token) =>
        SettledTwoMore(b.calls, claim, Complete(token, true, None, script.complete));
        BatchSettles(input, turn, index + 1, SettleSource(b, sourceId, token, input.Lease(), script));
      case _ =>
        SettledIdleClaim(b.calls, claim);
        OneCallMore(b.calls, claim);
    }
  }

  ghost predicate ReportsAdd(reports: seq<Report>) {
    forall i :: 0 <= i < |reports| ==>
      reports[i].iteration == i + 1 && reports[i].claimedCount == |reports[i].results| + |reports[i].errors|
  }

  function TotalClaimed(reports: seq<Report>): nat {
    if reports == [] then 0 else TotalClaimed(reports[..|reports| - 1]) + reports[|reports| - 1].claimedCount
  }

  lemma {:induction false} TurnsSettle(
    input: Input, turns: seq<Turn>, i: nat, calls: seq<BrokerCall>, reports: seq<Report>)
    requires i <= |turns| && |reports| == i && SettledOnce(calls) && ReportsAdd(reports)
    requires Claims(calls) == TotalClaimed(reports)
    ensures var r := RunTurns(input, turns, i, calls, reports);
      && SettledOnce(r.calls) && ReportsAdd(r.reports)
      && Claims(r.calls) >= TotalClaimed(r.reports)
      && (!r.status.Threw? ==> Claims(r.calls) == TotalClaimed(r.reports))
      && (input.maxIterations.Some? ==> |r.reports| <= Max(Max(1, i + 1), input.maxIterations.value))
    decreases |turns| - i
  {
    hide SettledOnce, Claims, Refusals, RunBatch;
    if i < |turns| && !turns[i].abortedBefore {
      BatchSettles(input, turns[i], 0, Batch(calls, 0, [], [], None));
      var b := RunBatch(input, turns[i], 0, Batch(calls, 0, [], [], None));
      if b.threw.None? {
        var reported := reports + [ReportOf(i + 1, b)];
        assert reported[..i] == reports;
        if !((input.maxIterations.Some? && i + 1 >= input.maxIterations.value) || turns[i].abortedAfter) {
          TurnsSettle(input, turns, i + 1, b.calls, reported);
        }
      }
    }
  }

  lemma NothingCalled()
    ensures SettledOnce([]) && Claims([]) == 0 && ReportsAdd([]) && TotalClaimed([]) == 0
  {
  }

  /**
   A worker that starts afresh completes every source it claims exactly once, right after
   claiming it and with the claim's own token; each report's claims are its extractions and
   failures together, and all reports' claims are all the claims the broker granted.
   */
  lemma EveryClaimIsSettledOnce(input: Input, turns: seq<Turn>)
    ensures var r := RunTurns(input, turns, 0, [], []);
      && SettledOnce(r.calls) && ReportsAdd(r.reports)
      && (!r.status.Threw? ==> Claims(r.calls) == TotalClaimed(r.reports))
      && (input.maxIterations.Some? ==> |r.reports| <= Max(1, input.maxIterations.value))
  {
    hide SettledOnce, Claims, ReportsAdd, TotalClaimed;
    NothingCalled();
    TurnsSettle(input, turns, 0, [], []);
  }

  /**
   The worker's second, failing completion never reaches the broker: the first one has
   already given the token up. A source whose extraction failed is never reported as failed.
   */
  lemma FailureIsNeverReported(input: Input, turns: seq<Turn>)
    ensures var calls := RunTurns(input, turns, 0, [], []).calls;
      forall k :: 0 <= k < |calls| && calls[k].Complete? ==> calls[k].success && calls[k].errorCode.None?
  {
    EveryClaimIsSettledOnce(input, turns);
    var calls := RunTurns(input, turns, 0, [], []).calls;
    hide RunTurns;
    forall k | 0 <= k < |calls| && calls[k].Complete? ensures calls[k].success && calls[k].errorCode.None? {
      assert Settles(calls[k], calls[k - 1]);
    }
  }

  /** A worker that claims one source, whose extraction the broker then refuses. */
  function RefusingTurn(sourceId: string, token: string, reason: Option<string>): Turn {
    Turn(false,
         (_: nat) => SourceScript(false, Claimed(Some(token), Some(Source(Some(sourceId)))), Refuses(reason)),
         false)
  }

  /** The refused extraction is in the worker's report; the broker has seen the claim and one completion, a success. */
  lemma RefusedExtractionStaysLocal(sourceId: string, token: string, reason: Option<string>)
    ensures var claim := Claimed(Some(token), Some(Source(Some(sourceId))));
      RunTurns(Input(None, Some(1), Some(1)), [RefusingTurn(sourceId, token, reason)], 0, [], []) ==
      Outcome([Claim(300, claim), Complete(token, true, None, Refuses(reason))],
              [Report(1, 1, [], [Failure(MessageOf(reason), sourceId)])], Returned)
  {
    var input, turn := Input(None, Some(1), Some(1)), RefusingTurn(sourceId, token, reason);
    var start := Batch([], 0, [], [], None);
    var settled := SettleSource(start, sourceId, token, 300, turn.sources(0));
    assert RunBatch(input, turn, 1, settled) == settled;
    assert ResultOf(turn.sources(0).claim) == Work(sourceId, token);
    assert RunBatch(input, turn, 0, start) == settled;
    hide RunBatch;
    assert RunTurns(input, [turn], 0, [], []) == Outcome(settled.calls, [ReportOf(1, settled)], Returned) by {
      assert [] + [ReportOf(1, settled)] == [ReportOf(1, settled)];
    }
    assert settled.errors == [Failure(MessageOf(reason), sourceId)] && settled.results == [];
    assert settled.calls == [Claim(300, turn.sources(0).claim), Complete(token, true, None, Refuses(reason))];
  }

  // ---------- What the reports tell ----------

  /** The extractions the broker has accepted, in order. */
  function ResultsIn(calls: seq<BrokerCall>): seq<string> {
    if calls == [] then []
    else
      var c := calls[|calls| - 1];
      ResultsIn(calls[..|calls| - 1])
      + if c.Complete? && c.completeAnswer.Completes? then [c.completeAnswer.result] else []
  }

  /** The extractions the broker has refused, each with its reason and the source claimed just before. */
  function FailuresIn(calls: seq<BrokerCall>): seq<Failure> {
    if calls == [] then []
    else
      var n := |calls| - 1;
      var c := calls[n];
      FailuresIn(calls[..n])
      + if c.Complete? && c.completeAnswer.Refuses? && n > 0 && GivesWork(calls[n - 1]) then
          var message := c.completeAnswer.reason.GetOr("Unknown extraction error.");
          [Failure(message, ResultOf(calls[n - 1].claimAnswer).sourceId)]
        else []
  }

  lemma IdleCallTells(calls: seq<BrokerCall>, c: BrokerCall)
    requires c.Claim?
    ensures ResultsIn(calls + [c]) == ResultsIn(calls) && FailuresIn(calls + [c]) == FailuresIn(calls)
  {
    assert (calls + [c])[..|calls|] == calls;
    assert ResultsIn(calls) + [] == ResultsIn(calls) && FailuresIn(calls) + [] == FailuresIn(calls);
  }

  lemma SettledSourceTells(calls: seq<BrokerCall>, claim: BrokerCall, c: BrokerCall)
    requires GivesWork(claim) && c.Complete?
    ensures ResultsIn(calls + [claim, c])
            == ResultsIn(calls) + (if c.completeAnswer.Completes? then [c.completeAnswer.result] else [])
    ensures FailuresIn(calls + [claim, c])
            == FailuresIn(calls)
               + (if c.completeAnswer.Completes? then []
                  else [Failure(c.completeAnswer.reason.GetOr("Unknown extraction error."),
                                ResultOf(claim.claimAnswer).sourceId)])
  {
    var all := calls + [claim, c];
    assert all[..|all| - 1] == calls + [claim] && all[|all| - 2] == claim;
    IdleCallTells(calls, claim);
  }

  /** The sources an iteration settles: it goes on to the first that gives no work, or is not to be asked for. */
  function SettledSources(input: Input, turn: Turn, index: nat): (n: nat)
    ensures index <= n
    decreases input.Maximum() - index
  {
    if index >= input.Maximum() || turn.sources(index).aborted || !ResultOf(turn.sources(index).claim).Work? then index
    else SettledSources(input, turn, index + 1)
  }

  /** The calls of one iteration: a claim and its completion for each source, and a last claim in vain. */
  function CallsOf(input: Input, turn: Turn, index: nat): seq<BrokerCall>
    decreases input.Maximum() - index
  {
    if index >= input.Maximum() || turn.sources(index).aborted then []
    else
      var script := turn.sources(index);
      var claim := Claim(input.Lease(), script.claim);
      match ResultOf(script.claim)
      case Work(_, token) => [claim, Complete(token, true, None, script.complete)] + CallsOf(input, turn, index + 1)
      case _ => [claim]
  }

  /** What an iteration asks, counts and reports, all told by its script and by the broker's answers. */
  lemma {:induction false} BatchTells(input: Input, turn: Turn, index: nat, b: Batch)
    requires b.results == ResultsIn(b.calls) && b.errors == FailuresIn(b.calls) && b.threw.None?
    ensures var r, n := RunBatch(input, turn, index, b), SettledSources(input, turn, index);
      && r.calls == b.calls + CallsOf(input, turn, index)
      && r.claimedCount == b.claimedCount + (n - index)
      && r.results == ResultsIn(r.calls) && r.errors == FailuresIn(r.calls)
      && (r.threw.Some? <==> n < input.Maximum() && !turn.sources(n).aborted
                             && ResultOf(turn.sources(n).claim).ClaimThrew?)
      && (r.threw.Some? ==> r.threw.value == ResultOf(turn.sources(n).claim).error)
    decreases input.Maximum() - index
  {
    hide ResultsIn, FailuresIn;
    if index < input.Maximum() && !turn.sources(index).aborted {
      var script := turn.sources(index);
      var claim := Claim(input.Lease(), script.claim);
      match ResultOf(script.claim)
      case Work(sourceId, token) =>
        var complete := Complete(token, true, None, script.complete);
        SettledSourceTells(b.calls, claim, complete);
        var settled := SettleSource(b, sourceId, token, input.Lease(), script);
        assert settled.errors == FailuresIn(settled.calls) by {
          assert b.errors + [] == b.errors;
        }
        assert settled.results == ResultsIn(settled.calls) by {
          assert b.results + [] == b.results;
        }
        BatchTells(input, turn, index + 1, settled);
        assert (b.calls + [claim, complete]) + CallsOf(input, turn, index + 1)
            == b.calls + ([claim, complete] + CallsOf(input, turn, index + 1));
      case _ => IdleCallTells(b.calls, claim);
    } else {
      assert b.calls + [] == b.calls;
    }
  }

  /** Why a run has ended where it did. */
  ghost predicate EndsWhenTold(input: Input, turns: seq<Turn>, r: Outcome) {
    var n := |r.reports|;
    && n <= |turns|
    && (forall i :: 0 <= i < n ==> !turns[i].abortedBefore)
    && (forall i :: 0 < i < n ==> MayGoOn(input, turns, i))
    && match r.status
       case Running => n == |turns| && (n > 0 ==> MayGoOn(input, turns, n))
       case Returned =>
         if n > 0 && !MayGoOn(input, turns, n) then true else n < |turns| && turns[n].abortedBefore
       case Threw(_) => n < |turns| && !turns[n].abortedBefore && (n > 0 ==> MayGoOn(input, turns, n))
  }

  /** After n iterations neither the signal nor the limit ends the run. */
  ghost predicate MayGoOn(input: Input, turns: seq<Turn>, n: nat)
    requires 0 < n <= |turns|
  {
    !turns[n - 1].abortedAfter && (input.maxIterations.Some? ==> n < input.maxIterations.value)
  }

  lemma {:induction false} TurnsEnd(
    input: Input, turns: seq<Turn>, i: nat, calls: seq<BrokerCall>, reports: seq<Report>)
    requires i <= |turns| && |reports| == i
    requires forall j :: 0 <= j < i ==> !turns[j].abortedBefore
    requires forall j :: 0 < j <= i ==> MayGoOn(input, turns, j)
    ensures EndsWhenTold(input, turns, RunTurns(input, turns, i, calls, reports))
    decreases |turns| - i
  {
    hide RunBatch;
    if i < |turns| && !turns[i].abortedBefore {
      var b := RunBatch(input, turns[i], 0, Batch(calls, 0, [], [], None));
      if b.threw.None? && MayGoOn(input, turns, i + 1) {
        TurnsEnd(input, turns, i + 1, b.calls, reports + [ReportOf(i + 1, b)]);
      }
    }
  }

  /** A worker stops exactly when its signal or its limit says so, or when a claim throws. */
  lemma WorkerStopsWhenTold(input: Input, turns: seq<Turn>)
    ensures EndsWhenTold(input, turns, RunTurns(input, turns, 0, [], []))
  {
    TurnsEnd(input, turns, 0, [], []);
  }

  // ---------- Iteration by iteration ----------

  /** All iterations' calls, one after the other. */
  function AllCalls(input: Input, turns: seq<Turn>): seq<BrokerCall> {
    if turns == [] then [] else AllCalls(input, turns[..|turns| - 1]) + CallsOf(input, turns[|turns| - 1], 0)
  }

  /** Each report is of its own iteration's calls. */
  ghost predicate ReportsTell(input: Input, turns: seq<Turn>, reports: seq<Report>) {
    |reports| <= |turns| && forall i :: 0 <= i < |reports| ==> ReportTells(input, turns[i], i, reports[i])
  }

  ghost predicate ReportTells(input: Input, turn: Turn, i: nat, report: Report) {
    var calls := CallsOf(input, turn, 0);
    report == Report(i + 1, SettledSources(input, turn, 0), ResultsIn(calls), FailuresIn(calls))
  }

  /** A batch does not depend on the calls before it. */
  lemma {:induction false} BatchIsItsOwn(
    input: Input, turn: Turn, index: nat, calls: seq<BrokerCall>, b: Batch)
    ensures var r := RunBatch(input, turn, index, b);
      RunBatch(input, turn, index, b.(calls := calls + b.calls)) == r.(calls := calls + r.calls)
    decreases input.Maximum() - index
  {
    if index < input.Maximum() && !turn.sources(index).aborted {
      var script := turn.sources(index);
      var claim := Claim(input.Lease(), script.claim);
      match ResultOf(script.claim)
      case Work(sourceId, token) =>
        var complete := Complete(token, true, None, script.complete);
        BatchIsItsOwn(input, turn, index + 1, calls, SettleSource(b, sourceId, token, input.Lease(), script));
        assert calls + (b.calls + [claim, complete]) == (calls + b.calls) + [claim, complete];
      case _ => assert calls + (b.calls + [claim]) == (calls + b.calls) + [claim];
    }
  }

  /** An iteration on top of earlier calls. */
  lemma IterationTells(input: Input, turn: Turn, i: nat, calls: seq<BrokerCall>)
    ensures var b := RunBatch(input, turn, 0, Batch(calls, 0, [], [], None));
      b.calls == calls + CallsOf(input, turn, 0) && ReportTells(input, turn, i, ReportOf(i + 1, b))
  {
    var start := Batch([], 0, [], [], None);
    assert ResultsIn([]) == [] && FailuresIn([]) == [];
    BatchTells(input, turn, 0, start);
    BatchIsItsOwn(input, turn, 0, calls, start);
    assert calls + [] == calls && [] + CallsOf(input, turn, 0) == CallsOf(input, turn, 0);
  }

  lemma {:induction false} TurnsTell(
    input: Input, turns: seq<Turn>, i: nat, calls: seq<BrokerCall>, reports: seq<Report>)
    requires i <= |turns| && |reports| == i && ReportsTell(input, turns, reports)
    requires calls == AllCalls(input, turns[..i])
    ensures var r := RunTurns(input, turns, i, calls, reports);
      && ReportsTell(input, turns, r.reports)
      && (if r.status.Threw? then |r.reports| < |turns| && r.calls == AllCalls(input, turns[..|r.reports| + 1])
          else r.calls == AllCalls(input, turns[..|r.reports|]))
    decreases |turns| - i
  {
    hide RunBatch, CallsOf, ReportTells;
    if i < |turns| && !turns[i].abortedBefore {
      IterationTells(input, turns[i], i, calls);
      var b := RunBatch(input, turns[i], 0, Batch(calls, 0, [], [], None));
      assert turns[..i + 1][..i] == turns[..i];
      if b.threw.None? && MayGoOn(input, turns, i + 1) {
        TurnsTell(input, turns, i + 1, b.calls, reports + [ReportOf(i + 1, b)]);
      }
    }
  }

  /**
   What the broker is asked is, iteration by iteration, a claim and its completion for each source
   and a last claim in vain; and each report is exactly that iteration's accepted extractions and
   refused ones, with the refusal's reason and the source's own id.
   */
  lemma ReportsTellTheCalls(input: Input, turns: seq<Turn>)
    ensures var r := RunTurns(input, turns, 0, [], []);
      && ReportsTell(input, turns, r.reports)
      && (if r.status.Threw? then |r.reports| < |turns| && r.calls == AllCalls(input, turns[..|r.reports| + 1])
          else r.calls == AllCalls(input, turns[..|r.reports|]))
  {
    hide ReportTells;
    assert turns[..0] == [];
    TurnsTell(input, turns, 0, [], []);
  }
}
