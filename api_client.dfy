/**
 * The API-client lab's retrying client (starter/litellm_client.py): up to
 * `max_retries` completion attempts, backing off exponentially after a rate
 * limit, waiting a fixed delay after a network failure unless it was the
 * last attempt, and giving up at once on anything else. What each attempt
 * of the completion call does is the oracle `outcome`; sleeping is recorded
 * as the list of waits.
 */
module ApiClient {
  import opened Wrappers
  import opened Strings

  /** How one call of `completion(...)` ends. */
  datatype Outcome =
    | Completed(content: Option<string>)
    | RateLimited
    | Network(message: string)
    | Unexpected(message: string)

  /** What `query` raises: the network error itself, or a `RuntimeError`. */
  datatype QueryError = NetworkError(message: string) | RuntimeError(message: string)

  /** The result of a query, the waits slept through, and the number of completion calls made. */
  datatype Attempts = Attempts(result: Result<Option<string>, QueryError>, waits: seq<real>, calls: nat)

  function FailedAfter(maxRetries: int): string {
    "Failed after " + IntText(maxRetries) + " attempts."
  }

  function Pow2(n: nat): nat {
    if n == 0 then 1 else 2 * Pow2(n - 1)
  }

  /** The backoff after a rate limit on attempt `attempt`: `retry_delay * 2 ** attempt`. */
  function Backoff(delay: real, attempt: nat): real {
    delay * (Pow2(attempt) as real)
  }

  /** The first backoff is the delay itself, and each further one doubles the last. */
  lemma BackoffDoubles(delay: real, attempt: nat)
    ensures Backoff(delay, 0) == delay
    ensures Backoff(delay, attempt + 1) == 2.0 * Backoff(delay, attempt)
  {
  }

  /** A backoff is never shorter than a non-negative delay. */
  lemma {:induction false} BackoffAtLeastDelay(delay: real, attempt: nat)
    requires delay >= 0.0
    ensures delay <= Backoff(delay, attempt)
  {
    BackoffDoubles(delay, if attempt == 0 then 0 else attempt - 1);
    if attempt > 0 {
      BackoffAtLeastDelay(delay, attempt - 1);
    }
  }

  /** With a positive delay, a later rate limit waits strictly longer. */
  lemma {:induction false} BackoffIncreases(delay: real, a: nat, b: nat)
    requires delay > 0.0 && a < b
    ensures Backoff(delay, a) < Backoff(delay, b)
  {
    BackoffDoubles(delay, b - 1);
    BackoffAtLeastDelay(delay, b - 1);
    if a < b - 1 {
      BackoffIncreases(delay, a, b - 1);
    }
  }

  /** Attempts `attempt` to `maxRetries - 1` of `query`. */
  function Tries(outcome: nat -> Outcome, attempt: nat, maxRetries: int, delay: real): (a: Attempts)
    ensures a.calls <= if maxRetries > attempt then maxRetries - attempt else 0
    ensures |a.waits| <= a.calls <= |a.waits| + 1
    ensures a.calls == |a.waits| ==> a.result == Failure(RuntimeError(FailedAfter(maxRetries)))
    decreases maxRetries - attempt
  {
    if attempt >= maxRetries then Attempts(Failure(RuntimeError(FailedAfter(maxRetries))), [], 0)
    else
      match outcome(attempt)
      case Completed(content) => Attempts(Success(content), [], 1)
      case Unexpected(m) => Attempts(Failure(RuntimeError("Unexpected error: " + m)), [], 1)
      case RateLimited =>
        var rest := Tries(outcome, attempt + 1, maxRetries, delay);
        Attempts(rest.result, [Backoff(delay, attempt)] + rest.waits, rest.calls + 1)
      case Network(m) =>
        if attempt + 1 < maxRetries then
          var rest := Tries(outcome, attempt + 1, maxRetries, delay);
          Attempts(rest.result, [delay] + rest.waits, rest.calls + 1)
        else Attempts(Failure(NetworkError(m)), [], 1)
  }

  /** A failure the client retries after (a network failure only while attempts remain). */
  predicate Retried(o: Outcome, attempt: nat, maxRetries: int) {
    o.RateLimited? || (o.Network? && attempt + 1 < maxRetries)
  }

  /** The first attempt that is not retried decides the result, after one call per attempt up to it. */
  lemma {:induction false} FirstUnretriedDecides(outcome: nat -> Outcome, attempt: nat, maxRetries: int, delay: real, k: nat)
    requires attempt <= k < maxRetries
    requires forall i :: attempt <= i < k ==> Retried(outcome(i), i, maxRetries)
    requires !Retried(outcome(k), k, maxRetries)
    ensures var a := Tries(outcome, attempt, maxRetries, delay);
            && a.calls == k - attempt + 1
            && (outcome(k).Completed? ==> a.result == Success(outcome(k).content))
            && (outcome(k).Unexpected? ==> a.result == Failure(RuntimeError("Unexpected error: " + outcome(k).message)))
            && (outcome(k).Network? ==> a.result == Failure(NetworkError(outcome(k).message)))
    decreases k - attempt
  {
    if attempt < k {
      FirstUnretriedDecides(outcome, attempt + 1, maxRetries, delay, k);
    }
  }

  /** So the content of the first successful attempt is returned when every earlier attempt was retried. */
  lemma FirstSuccessReturned(outcome: nat -> Outcome, maxRetries: int, delay: real, k: nat)
    requires k < maxRetries && outcome(k).Completed?
    requires forall i :: 0 <= i < k ==> outcome(i).RateLimited? || outcome(i).Network?
    ensures Tries(outcome, 0, maxRetries, delay).result == Success(outcome(k).content)
    ensures Tries(outcome, 0, maxRetries, delay).calls == k + 1
  {
    FirstUnretriedDecides(outcome, 0, maxRetries, delay, k);
  }

  /** An unexpected error ends the query at once, without a retry. */
  lemma UnexpectedIsNotRetried(outcome: nat -> Outcome, maxRetries: int, delay: real)
    requires maxRetries > 0 && outcome(0).Unexpected?
    ensures Tries(outcome, 0, maxRetries, delay) == Attempts(Failure(RuntimeError("Unexpected error: " + outcome(0).message)), [], 1)
  {
  }

  /** A network failure on the last attempt is raised as it is. */
  lemma NetworkOnLastAttemptRaises(outcome: nat -> Outcome, maxRetries: int, delay: real)
    requires maxRetries > 0 && outcome(maxRetries - 1).Network?
    ensures Tries(outcome, maxRetries - 1, maxRetries, delay) == Attempts(Failure(NetworkError(outcome(maxRetries - 1).message)), [], 1)
  {
  }

  /** When every attempt is rate limited, all are made, each followed by its doubling backoff, and the query fails. */
  lemma {:induction false} AllRateLimited(outcome: nat -> Outcome, attempt: nat, maxRetries: int, delay: real)
    requires forall i :: attempt <= i < maxRetries ==> outcome(i).RateLimited?
    ensures var a := Tries(outcome, attempt, maxRetries, delay);
            && a.result == Failure(RuntimeError(FailedAfter(maxRetries)))
            && a.calls == (if maxRetries > attempt then maxRetries - attempt else 0)
            && forall i :: 0 <= i < |a.waits| ==> a.waits[i] == Backoff(delay, attempt + i)
    decreases maxRetries - attempt
  {
    if attempt < maxRetries {
      AllRateLimited(outcome, attempt + 1, maxRetries, delay);
      var rest := Tries(outcome, attempt + 1, maxRetries, delay);
      var a := Tries(outcome, attempt, maxRetries, delay);
      assert a.waits == [Backoff(delay, attempt)] + rest.waits;
      forall i | 0 <= i < |a.waits| ensures a.waits[i] == Backoff(delay, attempt + i) {
        if i > 0 { assert a.waits[i] == rest.waits[i - 1]; }
      }
    }
  }

  /** With no attempts allowed, nothing is called and the query fails. */
  lemma NoAttemptsAllowed(outcome: nat -> Outcome, maxRetries: int, delay: real)
    requires maxRetries <= 0
    ensures Tries(outcome, 0, maxRetries, delay) == Attempts(Failure(RuntimeError(FailedAfter(maxRetries))), [], 0)
  {
  }

  /** A retried attempt contributes its wait and one call, and the later attempts decide the rest. */
  lemma RetryStep(outcome: nat -> Outcome, attempt: nat, maxRetries: int, delay: real, wait: real)
    requires attempt < maxRetries && Retried(outcome(attempt), attempt, maxRetries)
    requires wait == if outcome(attempt).RateLimited? then Backoff(delay, attempt) else delay
    ensures var a := Tries(outcome, attempt, maxRetries, delay);
            var rest := Tries(outcome, attempt + 1, maxRetries, delay);
            a.result == rest.result && a.waits == [wait] + rest.waits && a.calls == rest.calls + 1
  {
  }

  /** `total` is the calls and waits made so far followed by what attempts from here on add. */
  ghost predicate Accounts(total: Attempts, waits: seq<real>, calls: nat, rest: Attempts) {
    && total.result == rest.result
    && total.waits == waits + rest.waits
    && total.calls == calls + rest.calls
  }

  lemma RetryAccounts(outcome: nat -> Outcome, attempt: nat, maxRetries: int, delay: real, wait: real,
                      total: Attempts, waits: seq<real>, calls: nat)
    requires attempt < maxRetries && Retried(outcome(attempt), attempt, maxRetries)
    requires wait == if outcome(attempt).RateLimited? then Backoff(delay, attempt) else delay
    requires Accounts(total, waits, calls, Tries(outcome, attempt, maxRetries, delay))
    ensures Accounts(total, waits + [wait], calls + 1, Tries(outcome, attempt + 1, maxRetries, delay))
  {
    RetryStep(outcome, attempt, maxRetries, delay, wait);
    var rest := Tries(outcome, attempt + 1, maxRetries, delay);
    assert waits + ([wait] + rest.waits) == (waits + [wait]) + rest.waits;
  }

  /** An attempt that is not retried is the last call, and its outcome is the result. */
  lemma StopAccounts(outcome: nat -> Outcome, attempt: nat, maxRetries: int, delay: real,
                     total: Attempts, waits: seq<real>, calls: nat)
    requires attempt < maxRetries && !Retried(outcome(attempt), attempt, maxRetries)
    requires Accounts(total, waits, calls, Tries(outcome, attempt, maxRetries, delay))
    ensures total.waits == waits && total.calls == calls + 1
    ensures outcome(attempt).Completed? ==> total.result == Success(outcome(attempt).content)
    ensures outcome(attempt).Unexpected? ==> total.result == Failure(RuntimeError("Unexpected error: " + outcome(attempt).message))
    ensures outcome(attempt).Network? ==> total.result == Failure(NetworkError(outcome(attempt).message))
  {
    assert waits + [] == waits;
  }

  /** Once the attempts run out, nothing more is added and the query fails. */
  lemma EndAccounts(outcome: nat -> Outcome, attempt: nat, maxRetries: int, delay: real,
                    total: Attempts, waits: seq<real>, calls: nat)
    requires attempt >= maxRetries
    requires Accounts(total, waits, calls, Tries(outcome, attempt, maxRetries, delay))
    ensures total == Attempts(Failure(RuntimeError(FailedAfter(maxRetries))), waits, calls)
  {
    assert waits + [] == waits;
  }

  /** `LiteLLMClient(max_retries, retry_delay)`; the API key check reads the environment and is not part of this model. */
  class LiteLLMClient {
    const maxRetries: int
    const retryDelay: real

    constructor(maxRetries: int, retryDelay: real)
      ensures this.maxRetries == maxRetries && this.retryDelay == retryDelay
    {
      this.maxRetries := maxRetries;
      this.retryDelay := retryDelay;
    }

    /** `query(model_id, messages, **kwargs)`, the attempts' outcomes given. */
    method Query(outcome: nat -> Outcome) returns (result: Result<Option<string>, QueryError>, waits: seq<real>, calls: nat)
      ensures Attempts(result, waits, calls) == Tries(outcome, 0, maxRetries, retryDelay)
    {
      ghost var total := Tries(outcome, 0, maxRetries, retryDelay);
      waits := [];
      calls := 0;
      assert [] + total.waits == total.waits;
      var attempt: nat := 0;
      while attempt < maxRetries
        invariant attempt == calls
        invariant Accounts(total, waits, calls, Tries(outcome, attempt, maxRetries, retryDelay))
        decreases maxRetries - attempt
      {
        var o := outcome(attempt);
        if o.Completed? {
          StopAccounts(outcome, attempt, maxRetries, retryDelay, total, waits, calls);
          return Success(o.content), waits, calls + 1;
        } else if o.Unexpected? {
          StopAccounts(outcome, attempt, maxRetries, retryDelay, total, waits, calls);
          return Failure(RuntimeError("Unexpected error: " + o.message)), waits, calls + 1;
        } else if o.RateLimited? || attempt + 1 < maxRetries {
          var wait := if o.RateLimited? then Backoff(retryDelay, attempt) else retryDelay;
          RetryAccounts(outcome, attempt, maxRetries, retryDelay, wait, total, waits, calls);
          waits := waits + [wait];
          calls := calls + 1;
        } else {
          StopAccounts(outcome, attempt, maxRetries, retryDelay, total, waits, calls);
          return Failure(NetworkError(o.message)), waits, calls + 1;
        }
        attempt := attempt + 1;
      }
      EndAccounts(outcome, attempt, maxRetries, retryDelay, total, waits, calls);
      result := Failure(RuntimeError(FailedAfter(maxRetries)));
    }
  }
}
