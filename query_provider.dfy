/**
 * The query client's default options: the status-aware retry predicate and
 * the capped exponential back-off for queries, one fixed retry for
 * mutations, and the retry loop these options drive (the query library
 * decides to retry with the failure count so far, then waits the delay for
 * that count, then counts the failure).
 */
module QueryProvider {
  import opened Wrappers

  /** The default `retry`: never after a 4xx response, otherwise while fewer
      than three failures have been counted. `status` is the response status,
      None when the error carries no response. */
  function Retry(failureCount: nat, status: Option<int>): (r: bool)
    ensures status.Some? && 400 <= status.value < 500 ==> !r
    ensures !(status.Some? && 400 <= status.value < 500) ==> (r <==> failureCount < 3)
  {
    if status.Some? && status.value >= 400 && status.value < 500 then false
    else failureCount < 3
  }

  /** A failure without a response is retried like a 5xx. */
  lemma NoResponseIsRetryable(failureCount: nat)
    ensures Retry(failureCount, None) == Retry(failureCount, Some(503))
    ensures Retry(failureCount, None) <==> failureCount < 3
  {
  }

  function Pow2(n: nat): (r: nat)
    ensures r >= 1
  {
    if n == 0 then 1 else 2 * Pow2(n - 1)
  }

  lemma {:induction false} Pow2Monotone(a: nat, b: nat)
    requires a <= b
    ensures Pow2(a) <= Pow2(b)
    decreases b
  {
    if a < b { Pow2Monotone(a, b - 1); }
  }

  const MaxDelayMillis: nat := 30000

  /** `Math.min(1000 * 2 ** attemptIndex, 30000)`. */
  function RetryDelay(attemptIndex: nat): (r: nat)
    ensures r <= MaxDelayMillis
    ensures r == MaxDelayMillis || r == 1000 * Pow2(attemptIndex)
  {
    if 1000 * Pow2(attemptIndex) < MaxDelayMillis then 1000 * Pow2(attemptIndex) else MaxDelayMillis
  }

  /** The back-off starts at one second and doubles until it reaches the cap. */
  lemma RetryDelayDoubles(a: nat)
    ensures RetryDelay(0) == 1000
    ensures 1000 * Pow2(a + 1) <= MaxDelayMillis ==> RetryDelay(a + 1) == 2 * RetryDelay(a)
  {
  }

  /** From the sixth attempt on, the delay is the cap. */
  lemma RetryDelayCapped(a: nat)
    requires a >= 5
    ensures RetryDelay(a) == MaxDelayMillis
  {
    Pow2Monotone(5, a);
    assert Pow2(5) == 32;
  }

  /** Later attempts never wait less. */
  lemma RetryDelayMonotone(a: nat, b: nat)
    requires a <= b
    ensures RetryDelay(a) <= RetryDelay(b)
  {
    Pow2Monotone(a, b);
  }

  /** How a retry decision is made: a fixed number of retries, or the status-aware predicate. */
  datatype RetryPolicy = Count(n: nat) | StatusAware

  /** How long to wait before a retry: the capped back-off, or a fixed delay. */
  datatype DelayPolicy = Backoff | Fixed(millis: nat)

  datatype Defaults = Defaults(staleMillis: nat, cacheMillis: nat, retry: RetryPolicy, delay: DelayPolicy,
                               refetchOnWindowFocus: bool, refetchOnReconnect: bool)

  /** The query defaults: five minutes fresh, ten minutes cached, status-aware
      retry, capped back-off, no refetch on focus, refetch on reconnect. */
  const QueryDefaults: Defaults := Defaults(5 * 60 * 1000, 10 * 60 * 1000, StatusAware, Backoff, false, true)

  /** The mutation defaults: one retry after one second. */
  const MutationDefaults: Defaults := Defaults(0, 0, Count(1), Fixed(1000), false, false)

  function ShouldRetry(policy: RetryPolicy, failureCount: nat, status: Option<int>): (r: bool)
    ensures r ==> failureCount < RetryBound(policy)
  {
    match policy
    case Count(n) => failureCount < n
    case StatusAware => Retry(failureCount, status)
  }

  /** No policy retries once this many failures have been counted. */
  function RetryBound(policy: RetryPolicy): nat {
    match policy
    case Count(n) => n
    case StatusAware => 3
  }

  function DelayFor(policy: DelayPolicy, failureCount: nat): nat {
    match policy
    case Backoff => RetryDelay(failureCount)
    case Fixed(ms) => ms
  }

  /** The retry loop for a request that fails every time with `status`,
      from `failureCount` failures counted: the waits before each retry, in order. */
  function Waits(retry: RetryPolicy, delay: DelayPolicy, status: Option<int>, failureCount: nat): (r: seq<nat>)
    ensures |r| <= RetryBound(retry) - failureCount || |r| == 0
    decreases RetryBound(retry) - failureCount
  {
    if ShouldRetry(retry, failureCount, status)
    then [DelayFor(delay, failureCount)] + Waits(retry, delay, status, failureCount + 1)
    else []
  }

  function Sum(s: seq<nat>): nat {
    if s == [] then 0 else s[0] + Sum(s[1..])
  }

  /** A query that keeps failing without a 4xx is tried four times in all,
      waiting one, two and four seconds in between. */
  lemma QueryGivesUpAfterThreeRetries(status: Option<int>)
    requires !(status.Some? && 400 <= status.value < 500)
    ensures Waits(QueryDefaults.retry, QueryDefaults.delay, status, 0) == [1000, 2000, 4000]
    ensures Sum(Waits(QueryDefaults.retry, QueryDefaults.delay, status, 0)) == 7000
  {
    assert Waits(StatusAware, Backoff, status, 3) == [];
    assert Pow2(2) == 4;
    var w: seq<nat> := [1000, 2000, 4000];
    assert w[1..] == [2000, 4000] && w[1..][1..] == [4000];
    assert Sum(w) == 1000 + Sum([2000, 4000]) == 3000 + Sum([4000]);
  }

  /** A 4xx response is never retried under the query defaults. */
  lemma ClientErrorIsNotRetried(status: int)
    requires 400 <= status < 500
    ensures Waits(QueryDefaults.retry, QueryDefaults.delay, Some(status), 0) == []
  {
  }

  /** A failing mutation is tried twice, one second apart, whatever the status. */
  lemma MutationRetriesOnce(status: Option<int>)
    ensures Waits(MutationDefaults.retry, MutationDefaults.delay, status, 0) == [1000]
  {
    assert Waits(Count(1), Fixed(1000), status, 1) == [];
  }

  /** No request is retried more often than its policy's bound, and no wait exceeds the cap under back-off. */
  lemma {:induction false} WaitsBounded(retry: RetryPolicy, status: Option<int>, failureCount: nat)
    ensures forall i :: 0 <= i < |Waits(retry, Backoff, status, failureCount)| ==>
              Waits(retry, Backoff, status, failureCount)[i] <= MaxDelayMillis
    decreases RetryBound(retry) - failureCount
  {
    if ShouldRetry(retry, failureCount, status) {
      WaitsBounded(retry, status, failureCount + 1);
    }
  }
}
