/**
 * The outbound request layer of the status monitor: axios settling one try of a
 * request, and the response interceptor that re-issues a failed request with an
 * exponentially growing delay until its config's retry budget is spent.
 */
module HttpRetry {
  import opened Wrappers
  import opened Js

  /** What one try of a request gets from the network: an HTTP reply, or none (timeout, refused, TLS). */
  datatype Reply = Reply(status: nat, data: Value) | NoReply(message: string)

  /** How axios settles a try: it resolves on a 2xx status and rejects otherwise. */
  datatype Outcome =
    | Resolved(status: nat, data: Value)
    | Rejected(message: string, response: Option<(nat, Value)>)

  function Settle(r: Reply): Outcome {
    match r
    case Reply(status, data) =>
      if 200 <= status < 300 then Resolved(status, data)
      else Rejected("Request failed with status code " + NatToString(status), Some((status, data)))
    case NoReply(message) => Rejected(message, None)
  }

  /** The retry fields of an axios request config: `maxRetries` (None when absent) and `retryDelay` in ms. */
  datatype RetryPolicy = RetryPolicy(maxRetries: Option<int>, retryDelay: int)

  /** `maxRetries: 3, retryDelay: 1000` of the monitor's shared config. */
  const DefaultPolicy := RetryPolicy(Some(3), 1000)

  /** How many retries the interceptor grants: none when `maxRetries` is falsy or not positive. */
  function Budget(p: RetryPolicy): nat {
    if p.maxRetries.Some? && p.maxRetries.value > 0 then p.maxRetries.value else 0
  }

  function Pow2(k: nat): nat {
    if k == 0 then 1 else 2 * Pow2(k - 1)
  }

  /** The wait before retry number `k + 1`: `retryDelay * 2^k`. */
  function Delay(p: RetryPolicy, k: nat): int {
    p.retryDelay * Pow2(k)
  }

  /** Retries made in all, given that `k` have been made and the budget allows `k`. */
  function RetriesUsed(p: RetryPolicy, reply: nat -> Reply, k: nat): nat
    requires k <= Budget(p)
    decreases Budget(p) - k
  {
    if Settle(reply(k)).Resolved? || k == Budget(p) then k else RetriesUsed(p, reply, k + 1)
  }

  /** The outcome the caller of `axios(config)` finally sees. */
  function FinalOutcome(p: RetryPolicy, reply: nat -> Reply): Outcome {
    Settle(reply(RetriesUsed(p, reply, 0)))
  }

  /**
   * `axios(config)` with the retry interceptor installed: `reply(k)` is what try `k`
   * gets, `delays` the waits slept before the retries. The config's retry counter is
   * local to the request, since every call spreads a fresh config object.
   */
  method Send(p: RetryPolicy, reply: nat -> Reply) returns (outcome: Outcome, delays: seq<int>)
    ensures |delays| <= Budget(p)
    ensures forall k :: 0 <= k < |delays| ==> delays[k] == Delay(p, k)
    ensures forall k :: 0 <= k < |delays| ==> Settle(reply(k)).Rejected?
    ensures outcome == Settle(reply(|delays|))
    ensures outcome.Rejected? ==> |delays| == Budget(p)
    ensures |delays| == RetriesUsed(p, reply, 0) && outcome == FinalOutcome(p, reply)
  {
    var retryCount: nat := 0;
    delays := [];
    outcome := Settle(reply(0));
    while outcome.Rejected? && p.maxRetries.Some? && p.maxRetries.value != 0 && retryCount < p.maxRetries.value
      invariant retryCount == |delays| <= Budget(p)
      invariant forall k :: 0 <= k < |delays| ==> delays[k] == Delay(p, k)
      invariant forall k :: 0 <= k < |delays| ==> Settle(reply(k)).Rejected?
      invariant outcome == Settle(reply(retryCount))
      invariant RetriesUsed(p, reply, retryCount) == RetriesUsed(p, reply, 0)
      decreases Budget(p) - retryCount
    {
      retryCount := retryCount + 1;
      delays := delays + [Delay(p, retryCount - 1)];
      outcome := Settle(reply(retryCount));
    }
  }

  /** With the monitor's config a request is tried at most four times, waiting 1000, 2000 and 4000 ms. */
  lemma DefaultSchedule(reply: nat -> Reply)
    ensures Budget(DefaultPolicy) == 3
    ensures RetriesUsed(DefaultPolicy, reply, 0) <= 3
    ensures [Delay(DefaultPolicy, 0), Delay(DefaultPolicy, 1), Delay(DefaultPolicy, 2)] == [1000, 2000, 4000]
    ensures (forall k :: 0 <= k <= 3 ==> Settle(reply(k)).Rejected?) ==> RetriesUsed(DefaultPolicy, reply, 0) == 3
  {
    RetriesUsedBounds(DefaultPolicy, reply, 0);
  }

  lemma {:induction false} RetriesUsedBounds(p: RetryPolicy, reply: nat -> Reply, k: nat)
    requires k <= Budget(p)
    ensures k <= RetriesUsed(p, reply, k) <= Budget(p)
    ensures forall j :: k <= j < RetriesUsed(p, reply, k) ==> Settle(reply(j)).Rejected?
    ensures (forall j :: k <= j <= Budget(p) ==> Settle(reply(j)).Rejected?) ==> RetriesUsed(p, reply, k) == Budget(p)
    decreases Budget(p) - k
  {
    if !(Settle(reply(k)).Resolved? || k == Budget(p)) {
      RetriesUsedBounds(p, reply, k + 1);
    }
  }

  /** A config without a positive `maxRetries` is never retried: the first try's outcome is final. */
  lemma NoBudgetNoRetry(p: RetryPolicy, reply: nat -> Reply)
    requires p.maxRetries.None? || p.maxRetries.value <= 0
    ensures RetriesUsed(p, reply, 0) == 0 && FinalOutcome(p, reply) == Settle(reply(0))
  {
  }
}
