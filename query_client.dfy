/**
 * The client's cache defaults: how long a query stays fresh, how long the
 * persisted cache is kept, and when a failed query or mutation is retried.
 * `online` is the browser's `navigator.onLine` at the moment the cache asks.
 */
module QueryClient {

  /** `staleTime` of every query: five minutes, in milliseconds. */
  const StaleTime: nat := 1000 * 60 * 5

  /** `maxAge` of the persisted cache: one hour, in milliseconds. */
  const MaxAge: nat := 1000 * 60 * 60

  datatype Kind = Query | Mutation

  /** The `retry` option of queries. */
  predicate QueryRetry(failureCount: nat, online: bool) {
    online && failureCount < 3
  }

  /** The `retry` option of mutations. */
  predicate MutationRetry(failureCount: nat, online: bool) {
    online && failureCount < 2
  }

  predicate Retry(kind: Kind, failureCount: nat, online: bool) {
    match kind
    case Query => QueryRetry(failureCount, online)
    case Mutation => MutationRetry(failureCount, online)
  }

  /** How many failures each kind tolerates before giving up, while online. */
  function RetryLimit(kind: Kind): (n: nat)
    ensures 2 <= n <= 3
  {
    match kind
    case Query => 3
    case Mutation => 2
  }

  /** The predicate is exactly "online and below the limit". */
  lemma RetryIff(kind: Kind, failureCount: nat, online: bool)
    ensures Retry(kind, failureCount, online) <==> online && failureCount < RetryLimit(kind)
  {
  }

  /** Offline, nothing is ever retried. */
  lemma OfflineNeverRetries(kind: Kind, failureCount: nat)
    ensures !Retry(kind, failureCount, false)
  {
  }

  /** Once a retry is refused it stays refused for every larger failure count. */
  lemma RetryMonotone(kind: Kind, m: nat, n: nat, online: bool)
    requires m <= n
    ensures Retry(kind, n, online) ==> Retry(kind, m, online)
  {
  }

  /** Whenever a mutation would be retried, a query would be too. */
  lemma MutationRetryImpliesQueryRetry(failureCount: nat, online: bool)
    ensures MutationRetry(failureCount, online) ==> QueryRetry(failureCount, online)
  {
  }

  /** A query stays fresh for less time than the persisted cache keeps it. */
  lemma FreshWithinPersistence()
    ensures StaleTime == 300000 && MaxAge == 3600000
    ensures StaleTime < MaxAge
  {
  }

  /**
   * The retries granted in a row when the cache asks again after each failure,
   * starting at `failureCount` and stopping at the first refusal.
   */
  function RetriesFrom(kind: Kind, online: bool, failureCount: nat): nat
    decreases if failureCount < 3 then 3 - failureCount else 0
  {
    if Retry(kind, failureCount, online) then 1 + RetriesFrom(kind, online, failureCount + 1) else 0
  }

  /** From `failureCount`, exactly the failures left below the limit are retried (none offline). */
  lemma {:induction false} RetriesFromCount(kind: Kind, online: bool, failureCount: nat)
    ensures RetriesFrom(kind, online, failureCount) ==
      if online && failureCount < RetryLimit(kind) then RetryLimit(kind) - failureCount else 0
    decreases if failureCount < 3 then 3 - failureCount else 0
  {
    if Retry(kind, failureCount, online) {
      RetriesFromCount(kind, online, failureCount + 1);
    }
  }

  /** A failing query is retried at most three times, a mutation at most twice, and never offline. */
  lemma RetryBudget(kind: Kind, online: bool)
    ensures RetriesFrom(kind, online, 0) == (if online then RetryLimit(kind) else 0)
    ensures RetriesFrom(Query, true, 0) == 3 && RetriesFrom(Mutation, true, 0) == 2
  {
    RetriesFromCount(kind, online, 0);
    RetriesFromCount(Query, true, 0);
    RetriesFromCount(Mutation, true, 0);
  }
}
