/** The retry settings both providers share: an attempt budget and a
    backoff schedule indexed by attempt number, with their defaults. */
module RetryPolicy {
  import opened Wrappers

  /** The optional `retry` block of a provider's configuration. */
  datatype RetryOptions = RetryOptions(maxAttempts: Option<int>, delays: Option<seq<int>>)

  /** The resolved retry configuration a provider runs with. */
  datatype RetryConfig = RetryConfig(maxAttempts: int, delays: seq<int>)

  const DefaultMaxAttempts: int := 3
  const DefaultDelays: seq<int> := [1000, 2000, 4000]
  /** Delay used when the schedule has no entry for the attempt. */
  const FallbackDelay: int := 1000

  /** Each setting is the configured one when given (`??` keeps 0 and
      negative numbers), otherwise the default. */
  function Resolve(retry: Option<RetryOptions>): (c: RetryConfig)
    ensures retry == None ==> c == RetryConfig(DefaultMaxAttempts, DefaultDelays)
    ensures retry.Some? ==> c.maxAttempts == retry.value.maxAttempts.GetOr(DefaultMaxAttempts)
    ensures retry.Some? ==> c.delays == retry.value.delays.GetOr(DefaultDelays)
  {
    match retry
    case None => RetryConfig(DefaultMaxAttempts, DefaultDelays)
    case Some(r) => RetryConfig(r.maxAttempts.GetOr(DefaultMaxAttempts), r.delays.GetOr(DefaultDelays))
  }

  /** `delays[attempt] ?? 1000`: the scheduled delay for that attempt, or
      1000 ms past the end of the schedule (the last entry is NOT reused). */
  function DelayAt(delays: seq<int>, attempt: nat): (d: int)
    ensures attempt < |delays| ==> d == delays[attempt]
    ensures attempt >= |delays| ==> d == FallbackDelay
  {
    if attempt < |delays| then delays[attempt] else FallbackDelay
  }

  /** With the default schedule the first two retries wait 1000 and 2000 ms,
      and an attempt index past the schedule falls back to 1000 ms rather
      than to the last entry, 4000 ms. */
  lemma DefaultScheduleLookup()
    ensures DelayAt(DefaultDelays, 0) == 1000 && DelayAt(DefaultDelays, 1) == 2000
    ensures DelayAt(DefaultDelays, 3) == 1000 != DefaultDelays[|DefaultDelays| - 1]
  {
  }
}
