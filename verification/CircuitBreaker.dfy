/**
 packages/ai-runtime/src/provider-circuit-breaker.ts.

 The class keeps one record per provider and overwrites it. Its specification is a
 function of the history of calls alone: how many failures a provider has had since its
 last success, when the last one was, and whether an attempt has been let through since.
 */
module CircuitBreaker {
  import opened Wrappers

  datatype Policy = Policy(failureThreshold: int, cooldownMs: int)

  datatype CircuitState = Closed | HalfOpen | Open

  datatype Snapshot = Snapshot(consecutiveFailures: int, state: CircuitState)

  datatype Record = Record(consecutiveFailures: int, state: CircuitState, openedAtMs: Option<int>)

  /** One call on the breaker; `at` is the clock reading the call takes. */
  datatype Call =
    | BeforeAttempt(provider: string, at: int)
    | RecordSuccess(provider: string)
    | RecordFailure(provider: string, at: int)
    | Inspect(provider: string)

  const DEFAULT_POLICY := Policy(5, 60_000)

  // ---------- The history specification ----------

  ghost function FailuresSinceSuccess(h: seq<Call>, p: string): nat {
    if h == [] then 0 else
      var earlier := FailuresSinceSuccess(h[..|h| - 1], p);
      match h[|h| - 1]
      case RecordSuccess(q) => if q == p then 0 else earlier
      case RecordFailure(q, _) => if q == p then earlier + 1 else earlier
      case _ => earlier
  }

  ghost function LastFailureAt(h: seq<Call>, p: string): Option<int> {
    if h == [] then None else
      match h[|h| - 1]
      case RecordFailure(q, at) => if q == p then Some(at) else LastFailureAt(h[..|h| - 1], p)
      case _ => LastFailureAt(h[..|h| - 1], p)
  }

  ghost predicate Cooling(policy: Policy, lastFailure: Option<int>, at: int) {
    policy.cooldownMs > 0 && lastFailure.Some? && at - lastFailure.value < policy.cooldownMs
  }

  /** Some attempt on `p` since its last failure came after the cooldown. */
  ghost predicate Probed(policy: Policy, h: seq<Call>, p: string) {
    if h == [] then false else
      var before := h[..|h| - 1];
      match h[|h| - 1]
      case BeforeAttempt(q, at) =>
        Probed(policy, before, p) || (q == p && !Cooling(policy, LastFailureAt(before, p), at))
      case RecordFailure(q, _) => q != p && Probed(policy, before, p)
      case _ => Probed(policy, before, p)
  }

  ghost function StateOf(policy: Policy, h: seq<Call>, p: string): CircuitState {
    if policy.failureThreshold <= 0 || FailuresSinceSuccess(h, p) < policy.failureThreshold then Closed
    else if Probed(policy, h, p) then HalfOpen
    else Open
  }

  /** The reported count: failures since the last success, restarted at the threshold by a failed probe. */
  ghost function CountOf(policy: Policy, h: seq<Call>, p: string): int {
    if h == [] || policy.failureThreshold <= 0 then 0 else
      var before := h[..|h| - 1];
      match h[|h| - 1]
      case RecordSuccess(q) => if q == p then 0 else CountOf(policy, before, p)
      case RecordFailure(q, _) =>
        if q != p then CountOf(policy, before, p)
        else if StateOf(policy, before, p) == HalfOpen then policy.failureThreshold
        else CountOf(policy, before, p) + 1
      case _ => CountOf(policy, before, p)
  }

  ghost function SnapshotOf(policy: Policy, h: seq<Call>, p: string): Snapshot {
    Snapshot(CountOf(policy, h, p), StateOf(policy, h, p))
  }

  ghost function RecordOf(policy: Policy, h: seq<Call>, p: string): Record {
    var state := StateOf(policy, h, p);
    Record(CountOf(policy, h, p), state, if state == Open then LastFailureAt(h, p) else None)
  }

  // ---------- What the specification says ----------

  /** A circuit is closed exactly while its count is below the threshold, and then the count is exact. */
  lemma {:induction false} CountTellsState(policy: Policy, h: seq<Call>, p: string)
    requires policy.failureThreshold >= 1
    ensures CountOf(policy, h, p) < policy.failureThreshold <==> StateOf(policy, h, p) == Closed
    ensures StateOf(policy, h, p) == Closed ==> CountOf(policy, h, p) == FailuresSinceSuccess(h, p)
    ensures FailuresSinceSuccess(h, p) > 0 ==> LastFailureAt(h, p).Some?
  {
    if h != [] {
      CountTellsState(policy, h[..|h| - 1], p);
    }
  }

  ghost function LastFailureIndex(h: seq<Call>, p: string): (i: int)
    ensures -1 <= i < |h|
    ensures i >= 0 ==> h[i].RecordFailure? && h[i].provider == p
    ensures forall j :: i < j < |h| ==> !(h[j].RecordFailure? && h[j].provider == p)
    ensures LastFailureAt(h, p) == if i < 0 then None else Some(h[i].at)
  {
    if h == [] then -1
    else if h[|h| - 1].RecordFailure? && h[|h| - 1].provider == p then |h| - 1
    else LastFailureIndex(h[..|h| - 1], p)
  }

  /** `Probed` in plain terms: an attempt since the last failure that the cooldown did not cover. */
  lemma {:induction false} ProbedMeans(policy: Policy, h: seq<Call>, p: string)
    ensures Probed(policy, h, p) <==>
            exists j :: LastFailureIndex(h, p) < j < |h| && h[j].BeforeAttempt? && h[j].provider == p
                        && !Cooling(policy, LastFailureAt(h, p), h[j].at)
  {
    if h != [] {
      var before, last := h[..|h| - 1], h[|h| - 1];
      ProbedMeans(policy, before, p);
      assert forall j :: 0 <= j < |before| ==> h[j] == before[j];
      if last.BeforeAttempt? && last.provider == p {
        assert h[|h| - 1] == last;
      }
    }
  }

  /**
   Open means: the failures since the last success reach the threshold, and every
   attempt asked for since the last failure fell inside the cooldown.
   */
  lemma {:induction false} OpenExactlyWhen(policy: Policy, h: seq<Call>, p: string)
    requires policy.failureThreshold >= 1
    ensures SnapshotOf(policy, h, p).state != Closed <==> FailuresSinceSuccess(h, p) >= policy.failureThreshold
    ensures SnapshotOf(policy, h, p).state == Open <==>
            && FailuresSinceSuccess(h, p) >= policy.failureThreshold
            && forall j :: LastFailureIndex(h, p) < j < |h| && h[j].BeforeAttempt? && h[j].provider == p
                           ==> Cooling(policy, LastFailureAt(h, p), h[j].at)
  {
    ProbedMeans(policy, h, p);
  }

  predicate Fails(c: Call, p: string) {
    c.RecordFailure? && c.provider == p
  }

  /** The failures of p from position n on. */
  ghost function FailuresFrom(h: seq<Call>, p: string, n: int): nat {
    if |h| <= n || h == [] then 0 else FailuresFrom(h[..|h| - 1], p, n) + if Fails(h[|h| - 1], p) then 1 else 0
  }

  /** The failure at position i is that of a probe: the circuit was half open. */
  ghost predicate FailedProbe(policy: Policy, h: seq<Call>, p: string, i: int) {
    0 <= i < |h| && Fails(h[i], p) && StateOf(policy, h[..i], p) == HalfOpen
  }

  ghost predicate NoSuccessFrom(h: seq<Call>, p: string, n: int) {
    forall j :: 0 <= n <= j < |h| ==> !(h[j].RecordSuccess? && h[j].provider == p)
  }

  /** The last failed probe since the last success. */
  ghost predicate LastFailedProbe(policy: Policy, h: seq<Call>, p: string, i: int) {
    FailedProbe(policy, h, p, i) && NoSuccessFrom(h, p, i) && forall j :: i < j ==> !FailedProbe(policy, h, p, j)
  }

  lemma ProbesStay(policy: Policy, h: seq<Call>, p: string)
    requires h != []
    ensures forall i :: 0 <= i < |h| - 1 ==>
              (FailedProbe(policy, h, p, i) <==> FailedProbe(policy, h[..|h| - 1], p, i))
    ensures forall i :: 0 <= i < |h| - 1 ==>
              (NoSuccessFrom(h, p, i) <==> NoSuccessFrom(h[..|h| - 1], p, i)
                                           && !(h[|h| - 1].RecordSuccess? && h[|h| - 1].provider == p))
  {
    hide StateOf;
    var before := h[..|h| - 1];
    forall i | 0 <= i < |before| ensures before[..i] == h[..i] && before[i] == h[i] {
    }
    assert forall j :: 0 <= j < |before| ==> h[j] == before[j];
  }

  /** The last failed probe of a history, if there is one since the last success. */
  lemma {:induction false} CountSinceProbe(policy: Policy, h: seq<Call>, p: string) returns (i: int)
    requires policy.failureThreshold >= 1
    ensures i == -1 || LastFailedProbe(policy, h, p, i)
    ensures i == -1 ==> forall j :: FailedProbe(policy, h, p, j) ==> !NoSuccessFrom(h, p, j)
    ensures i == -1 ==> CountOf(policy, h, p) == FailuresSinceSuccess(h, p)
    ensures i >= 0 ==> CountOf(policy, h, p) == policy.failureThreshold + FailuresFrom(h, p, i + 1)
  {
    if h == [] {
      i := -1;
    } else {
      var n := |h| - 1;
      var before, last := h[..n], h[n];
      i := CountSinceProbe(policy, before, p);
      ProbesStay(policy, h, p);
      assert h[..n] == before;
      hide StateOf, NoSuccessFrom;
      if last.RecordSuccess? && last.provider == p {
        SuccessEndsProbes(h, p);
        i := -1;
      } else if Fails(last, p) && StateOf(policy, before, p) == HalfOpen {
        NoSuccessAtLast(h, p);
        i := n;
      }
    }
  }

  lemma SuccessEndsProbes(h: seq<Call>, p: string)
    requires h != [] && h[|h| - 1].RecordSuccess? && h[|h| - 1].provider == p
    ensures forall j :: 0 <= j < |h| ==> !NoSuccessFrom(h, p, j)
  {
    var n := |h| - 1;
    forall j | 0 <= j < |h| ensures !NoSuccessFrom(h, p, j) {
      assert h[n].RecordSuccess?;
    }
  }

  lemma NoSuccessAtLast(h: seq<Call>, p: string)
    requires h != [] && !h[|h| - 1].RecordSuccess?
    ensures NoSuccessFrom(h, p, |h| - 1)
  {
  }

  /**
   The reported count: the threshold and the failures since the last failed probe, or, when no
   probe has failed since the last success, all failures since that success.
   */
  lemma CountExactly(policy: Policy, h: seq<Call>, p: string)
    requires policy.failureThreshold >= 1
    ensures forall i :: LastFailedProbe(policy, h, p, i) ==>
              SnapshotOf(policy, h, p).consecutiveFailures == policy.failureThreshold + FailuresFrom(h, p, i + 1)
    ensures (forall i :: !LastFailedProbe(policy, h, p, i)) ==>
              SnapshotOf(policy, h, p).consecutiveFailures == FailuresSinceSuccess(h, p)
  {
    hide StateOf, CountOf, FailuresSinceSuccess, FailuresFrom, NoSuccessFrom;
    var i := CountSinceProbe(policy, h, p);
    forall j | LastFailedProbe(policy, h, p, j) ensures j == i {
      assert FailedProbe(policy, h, p, j);
    }
  }

  ghost function CallsOn(h: seq<Call>, p: string): seq<Call> {
    if h == [] then []
    else CallsOn(h[..|h| - 1], p) + if h[|h| - 1].provider == p then [h[|h| - 1]] else []
  }

  lemma CallsOnStep(h: seq<Call>, p: string)
    requires h != []
    ensures var own, before, last := CallsOn(h, p), CallsOn(h[..|h| - 1], p), h[|h| - 1];
      if last.provider == p then own != [] && own[..|own| - 1] == before && own[|own| - 1] == last else own == before
  {
  }

  lemma {:induction false} OwnFailuresMatter(policy: Policy, h: seq<Call>, p: string)
    ensures FailuresSinceSuccess(h, p) == FailuresSinceSuccess(CallsOn(h, p), p)
    ensures LastFailureAt(h, p) == LastFailureAt(CallsOn(h, p), p)
    ensures Probed(policy, h, p) == Probed(policy, CallsOn(h, p), p)
  {
    if h != [] {
      OwnFailuresMatter(policy, h[..|h| - 1], p);
      CallsOnStep(h, p);
      hide CallsOn;
    }
  }

  /** Calls on other providers do not matter. */
  lemma {:induction false} OtherProvidersDoNotMatter(policy: Policy, h: seq<Call>, p: string)
    ensures SnapshotOf(policy, h, p) == SnapshotOf(policy, CallsOn(h, p), p)
    ensures FailuresSinceSuccess(h, p) == FailuresSinceSuccess(CallsOn(h, p), p)
    ensures LastFailureAt(h, p) == LastFailureAt(CallsOn(h, p), p)
    ensures Probed(policy, h, p) == Probed(policy, CallsOn(h, p), p)
  {
    OwnFailuresMatter(policy, h, p);
    if h != [] {
      OtherProvidersDoNotMatter(policy, h[..|h| - 1], p);
      CallsOnStep(h, p);
      hide CallsOn, FailuresSinceSuccess, LastFailureAt, Probed;
    }
  }

  /** Without a positive threshold the breaker never leaves the closed state. */
  lemma NoThresholdNeverOpens(policy: Policy, h: seq<Call>, p: string)
    requires policy.failureThreshold <= 0
    ensures SnapshotOf(policy, h, p) == Snapshot(0, Closed)
  {
  }

  lemma AfterCall(policy: Policy, h: seq<Call>, c: Call)
    ensures forall q :: q != c.provider ==> RecordOf(policy, h + [c], q) == RecordOf(policy, h, q)
    ensures c.Inspect? ==> RecordOf(policy, h + [c], c.provider) == RecordOf(policy, h, c.provider)
    ensures policy.failureThreshold <= 0 ==>
            RecordOf(policy, h + [c], c.provider) == Record(0, Closed, None) == RecordOf(policy, h, c.provider)
    ensures c.RecordSuccess? ==>
            RecordOf(policy, h + [c], c.provider) == Record(0, Closed, None)
    ensures c.RecordFailure? && policy.failureThreshold > 0 ==>
            var n := if StateOf(policy, h, c.provider) == HalfOpen then policy.failureThreshold
                     else CountOf(policy, h, c.provider) + 1;
            RecordOf(policy, h + [c], c.provider) ==
            (if n >= policy.failureThreshold then Record(n, Open, Some(c.at)) else Record(n, Closed, None))
    ensures c.BeforeAttempt? ==>
            var r := RecordOf(policy, h, c.provider);
            RecordOf(policy, h + [c], c.provider) ==
            (if r.state == Open && !Cooling(policy, r.openedAtMs, c.at)
             then Record(r.consecutiveFailures, HalfOpen, None) else r)
  {
    assert (h + [c])[..|h|] == h;
    if policy.failureThreshold >= 1 {
      CountTellsState(policy, h, c.provider);
      CountTellsState(policy, h + [c], c.provider);
    }
  }

  // ---------- The class ----------

  function ClosedCircuit(): Record {
    Record(0, Closed, None)
  }

  function TakeSnapshot(r: Record): Snapshot {
    Snapshot(r.consecutiveFailures, r.state)
  }

  function Lookup(records: map<string, Record>, p: string): Record {
    if p in records then records[p] else ClosedCircuit()
  }

  class ProviderCircuitBreaker {
    const policy: Policy
    var records: map<string, Record>
    ghost var history: seq<Call>

    ghost predicate Valid()
      reads this
    {
      forall p: string :: Lookup(records, p) == RecordOf(policy, history, p)
    }

    constructor (policy: Policy := DEFAULT_POLICY)
      ensures Valid() && history == [] && this.policy == policy
    {
      this.policy := policy;
      records := map[];
      history := [];
    }

    method BeforeAttempt(provider: string, now: int) returns (r: Snapshot)
      requires Valid()
      modifies this
      ensures Valid() && history == old(history) + [Call.BeforeAttempt(provider, now)]
      ensures r == SnapshotOf(policy, history, provider)
    {
      AfterCall(policy, history, Call.BeforeAttempt(provider, now));
      var record := Lookup(records, provider);
      history := history + [Call.BeforeAttempt(provider, now)];
      if provider !in records || record.state != Open {
        return TakeSnapshot(record);
      }
      if policy.cooldownMs > 0 && record.openedAtMs.Some? && now - record.openedAtMs.value < policy.cooldownMs {
        return TakeSnapshot(record);
      }
      var halfOpen := Record(record.consecutiveFailures, HalfOpen, None);
      records := records[provider := halfOpen];
      return TakeSnapshot(halfOpen);
    }

    method RecordSuccess(provider: string) returns (r: Snapshot)
      requires Valid()
      modifies this
      ensures Valid() && history == old(history) + [Call.RecordSuccess(provider)]
      ensures r == SnapshotOf(policy, history, provider)
    {
      AfterCall(policy, history, Call.RecordSuccess(provider));
      history := history + [Call.RecordSuccess(provider)];
      records := records[provider := ClosedCircuit()];
      r := TakeSnapshot(ClosedCircuit());
    }

    method Inspect(provider: string) returns (r: Snapshot)
      requires Valid()
      modifies this`history
      ensures Valid() && history == old(history) + [Call.Inspect(provider)]
      ensures r == SnapshotOf(policy, history, provider)
    {
      AfterCall(policy, history, Call.Inspect(provider));
      history := history + [Call.Inspect(provider)];
      r := TakeSnapshot(Lookup(records, provider));
    }

    method RecordFailure(provider: string, now: int) returns (r: Snapshot)
      requires Valid()
      modifies this
      ensures Valid() && history == old(history) + [Call.RecordFailure(provider, now)]
      ensures r == SnapshotOf(policy, history, provider)
    {
      AfterCall(policy, history, Call.RecordFailure(provider, now));
      history := history + [Call.RecordFailure(provider, now)];
      if policy.failureThreshold <= 0 {
        return TakeSnapshot(ClosedCircuit());
      }
      var current := Lookup(records, provider);
      var consecutiveFailures :=
        if current.state == HalfOpen then policy.failureThreshold else current.consecutiveFailures + 1;
      var next := if consecutiveFailures >= policy.failureThreshold
        then Record(consecutiveFailures, Open, Some(now))
        else Record(consecutiveFailures, Closed, None);
      records := records[provider := next];
      r := TakeSnapshot(next);
    }
  }
}
