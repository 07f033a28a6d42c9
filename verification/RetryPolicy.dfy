/** packages/ai-runtime/src/provider-retry-policy.ts and the failure classification it feeds. */
module RetryPolicy {
  import opened Wrappers
  import opened RunTypes

  datatype RawPolicy = RawPolicy(maxRetries: Option<Number>, backoffMs: Option<Number>)

  datatype Policy = Policy(maxRetries: nat, backoffMs: nat)

  function NonNegativeInteger(value: Option<Number>): nat {
    if value.Some? && value.value.Whole? && value.value.value > 0 then value.value.value else 0
  }

  function Normalize(input: Option<RawPolicy>): Policy {
    if input.None? then Policy(0, 0)
    else Policy(NonNegativeInteger(input.value.maxRetries), NonNegativeInteger(input.value.backoffMs))
  }

  const RETRYABLE_CODES: set<string> := {
    "provider_quota_exceeded",
    "provider_rate_limited",
    "provider_stream_error",
    "provider_timeout",
    "provider_unavailable",
    "provider_unexpected_failure"
  }

  const CLIENT_PAYLOAD_TYPES: set<string> := {
    "cancelled",
    "http_400",
    "http_413",
    "http_422",
    "invalid_request_or_capability",
    "policy"
  }

  predicate IsRetryable(errorCode: string) {
    errorCode in RETRYABLE_CODES
  }

  predicate CountsAgainstHealth(errorType: Option<string>) {
    errorType.None? || errorType.value !in CLIENT_PAYLOAD_TYPES
  }

  /** `providerFailureData`'s reading of a thrown value: its code and type. */
  function Classify(error: ProviderError): (string, Option<string>) {
    match error
    case Classified(code, kind) => (code, kind)
    case NamedAbort => ("provider_stream_aborted", Some("AbortError"))
    case Unclassified => ("provider_stream_error", None)
  }

  /** Whether `retryDelay` resolves, given the parent signal before and during the wait. */
  predicate DelayResolves(backoffMs: nat, abortedBefore: bool, abortedDuring: bool) {
    !abortedBefore && (backoffMs <= 0 || !abortedDuring)
  }

  predicate IsPositive(value: Option<Number>) {
    value.Some? && value.value.Whole? && value.value.value > 0
  }

  /** Positive integers are kept as they are, anything else counts as none; normalizing again changes nothing. */
  lemma NormalizedPolicy(input: RawPolicy)
    ensures var p := Normalize(Some(input));
      && (p.maxRetries > 0 <==> IsPositive(input.maxRetries))
      && (p.maxRetries > 0 ==> Some(Whole(p.maxRetries)) == input.maxRetries)
      && (p.backoffMs > 0 <==> IsPositive(input.backoffMs))
      && (p.backoffMs > 0 ==> Some(Whole(p.backoffMs)) == input.backoffMs)
      && Normalize(Some(RawPolicy(Some(Whole(p.maxRetries)), Some(Whole(p.backoffMs))))) == p
  {
  }

  /** Exactly these codes are retried. */
  lemma RetriedCodes(code: string)
    ensures IsRetryable(code) <==>
              || code == "provider_timeout" || code == "provider_rate_limited" || code == "provider_unavailable"
              || code == "provider_quota_exceeded" || code == "provider_stream_error"
              || code == "provider_unexpected_failure"
  {
    if IsRetryable(code) {
      assert code in RETRYABLE_CODES;
    }
  }

  /** Exactly these types are the client's own doing; a failure without a type never is. */
  lemma ClientTypes(kind: string)
    ensures CountsAgainstHealth(None)
    ensures !CountsAgainstHealth(Some(kind)) <==>
              || kind == "http_400" || kind == "http_413" || kind == "http_422" || kind == "cancelled"
              || kind == "policy" || kind == "invalid_request_or_capability"
  {
    if !CountsAgainstHealth(Some(kind)) {
      assert kind in CLIENT_PAYLOAD_TYPES;
    }
  }

  /** A failure of the stream itself is retried and held against the provider; an aborted stream is not retried. */
  lemma OwnFailures()
    ensures IsRetryable(Classify(Unclassified).0) && CountsAgainstHealth(Classify(Unclassified).1)
    ensures IsRetryable("provider_timeout") && CountsAgainstHealth(Some("timeout"))
    ensures !IsRetryable(Classify(NamedAbort).0)
  {
  }
}
