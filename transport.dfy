/**
 * One request through the client that `createInstance` builds
 * (lib/axios-helpers.js:16-103): retry-axios, driven by `shouldRetry`, and the
 * JSON interceptor. `exchange(k)` is what the k-th attempt (counting from 0)
 * settles with before any interceptor of this repository sees it: a response,
 * or an error from the adapter or from status validation.
 *
 * retry-axios is not part of this repository; the model assumes what its
 * documentation promises: the counter starts at 0, `shouldRetry` is asked
 * after each failed attempt, and each retry adds one to the counter.
 */
module Transport {
  import opened Js
  import opened Http
  import opened Retry
  import ExpectJson

  datatype Settled = Settled(outcome: Outcome, attempts: nat)

  function Max(a: int, b: int): int {
    if a >= b then a else b
  }

  /** The smaller of the two caps that apply under the given settings. */
  function Cap(s: RaxSettings): int {
    Min(StateAt(s, 0).retry, StateAt(s, 0).noResponseRetries)
  }

  /**
   * retry-axios driving one request from attempt `attempt` on. The request
   * settles with the first attempt that resolves or whose error `shouldRetry`
   * declines; no more than `Cap(s) + 1` attempts are ever made.
   */
  function Settle(s: RaxSettings, exchange: nat -> Outcome, retryable: AxiosError -> bool,
                  attempt: nat): (r: Settled)
    ensures attempt < r.attempts <= Max(attempt, Cap(s)) + 1
    ensures r.outcome == exchange(r.attempts - 1)
    ensures r.outcome.Rejected? ==>
              !ShouldRetry(StateAt(s, r.attempts - 1), r.outcome.error, retryable(r.outcome.error))
    // every earlier attempt was rejected with an error `shouldRetry` accepted
    ensures forall j :: attempt <= j < r.attempts - 1 ==>
              exchange(j).Rejected? && ShouldRetry(StateAt(s, j), exchange(j).error, retryable(exchange(j).error))
    decreases StateAt(s, 0).retry - attempt
  {
    match exchange(attempt)
    case Resolved(_) => Settled(exchange(attempt), attempt + 1)
    case Rejected(e) =>
      if ShouldRetry(StateAt(s, attempt), e, retryable(e)) then Settle(s, exchange, retryable, attempt + 1)
      else Settled(exchange(attempt), attempt + 1)
  }

  /**
   * The client as `createInstance` wires it: retry-axios is attached first and
   * the JSON interceptor second (lines 96-100), and axios runs response
   * interceptors in that order, so a non-JSON body is rejected only after the
   * retry handler has already let the response through.
   */
  function SendAsWritten(s: RaxSettings, exchange: nat -> Outcome, retryable: AxiosError -> bool,
                         parse: string -> Option<Value>): (r: Settled)
    ensures r.attempts == Settle(s, exchange, retryable, 0).attempts
    ensures r.outcome == ExpectJson.OnSettled(Settle(s, exchange, retryable, 0).outcome, parse)
  {
    var settled := Settle(s, exchange, retryable, 0);
    Settled(ExpectJson.OnSettled(settled.outcome, parse), settled.attempts)
  }

  /** The intended client: each attempt's body is checked for JSON before the retry decision. */
  function Send(s: RaxSettings, exchange: nat -> Outcome, retryable: AxiosError -> bool,
                parse: string -> Option<Value>): (r: Settled)
    ensures 1 <= r.attempts <= Max(0, Cap(s)) + 1
    ensures r.outcome == ExpectJson.OnSettled(exchange(r.attempts - 1), parse)
    ensures r.outcome.Rejected? ==>
              !ShouldRetry(StateAt(s, r.attempts - 1), r.outcome.error, retryable(r.outcome.error))
    // every earlier attempt, once checked for JSON, was a rejection `shouldRetry` accepted
    ensures forall j :: 0 <= j < r.attempts - 1 ==>
              var checked := ExpectJson.OnSettled(exchange(j), parse);
              checked.Rejected? && ShouldRetry(StateAt(s, j), checked.error, retryable(checked.error))
  {
    var checked := (k: nat) => ExpectJson.OnSettled(exchange(k), parse);
    var r := Settle(s, checked, retryable, 0);
    assert forall j :: 0 <= j < r.attempts - 1 ==> checked(j) == ExpectJson.OnSettled(exchange(j), parse);
    r
  }

  /** An attempt whose error `shouldRetry` would retry below the caps. */
  predicate RetryableFailure(o: Outcome, retryable: AxiosError -> bool) {
    o.Rejected? && (Includes(o.error.message, NotJsonMessage) || retryable(o.error))
  }

  /** A request that keeps failing retryably is attempted exactly `Cap(s) + 1` times (at least once). */
  lemma {:induction false} ExhaustsCap(s: RaxSettings, exchange: nat -> Outcome,
                                       retryable: AxiosError -> bool, attempt: nat)
    requires forall k :: RetryableFailure(exchange(k), retryable)
    ensures Settle(s, exchange, retryable, attempt).attempts == Max(attempt, Cap(s)) + 1
    decreases StateAt(s, 0).retry - attempt
  {
    var e := exchange(attempt);
    assert RetryableFailure(e, retryable);
    if attempt < Cap(s) {
      assert ShouldRetry(StateAt(s, attempt), e.error, retryable(e.error));
      ExhaustsCap(s, exchange, retryable, attempt + 1);
    }
  }

  /**
   * A request that fails retryably `k` times and then resolves succeeds on
   * attempt `k + 1`, provided `k` retries fit under the cap.
   */
  lemma {:induction false} RecoversAfter(s: RaxSettings, exchange: nat -> Outcome,
                                         retryable: AxiosError -> bool, k: nat, attempt: nat)
    requires k <= Cap(s) && attempt <= k
    requires forall j :: attempt <= j < k ==> RetryableFailure(exchange(j), retryable)
    requires exchange(k).Resolved?
    ensures Settle(s, exchange, retryable, attempt) == Settled(exchange(k), k + 1)
    decreases k - attempt
  {
    if attempt < k {
      var e := exchange(attempt);
      assert RetryableFailure(e, retryable);
      assert ShouldRetry(StateAt(s, attempt), e.error, retryable(e.error));
      RecoversAfter(s, exchange, retryable, k, attempt + 1);
    }
  }

  /** A response whose body is text that does not parse as JSON. */
  predicate NotJsonReply(o: Outcome, parse: string -> Option<Value>) {
    o.Resolved? && ExpectJson.ExpectsJson(o.response)
    && ExpectJson.RawText(o.response.data) && parse(o.response.data.s).None?
  }

  /**
   * As written, a non-JSON body is surfaced after the first attempt however
   * many retries the settings allow: the `shouldRetry` branch for it is never reached.
   */
  lemma NotJsonNeverRetriedAsWritten(s: RaxSettings, exchange: nat -> Outcome,
                                     retryable: AxiosError -> bool, parse: string -> Option<Value>)
    requires NotJsonReply(exchange(0), parse)
    ensures SendAsWritten(s, exchange, retryable, parse)
         == Settled(Rejected(AxiosError(NotJsonMessage, None, Some(exchange(0).response), false)), 1)
  {
  }

  /** Intended: non-JSON bodies are retried until the cap, `Cap(s) + 1` attempts in all. */
  lemma NotJsonRetriedToCap(s: RaxSettings, exchange: nat -> Outcome,
                            retryable: AxiosError -> bool, parse: string -> Option<Value>)
    requires forall k :: NotJsonReply(exchange(k), parse)
    ensures Send(s, exchange, retryable, parse).attempts == Max(0, Cap(s)) + 1
    ensures Send(s, exchange, retryable, parse).outcome.Rejected?
    ensures Send(s, exchange, retryable, parse).outcome.error.message == NotJsonMessage
  {
    var checked := (k: nat) => ExpectJson.OnSettled(exchange(k), parse);
    forall k: nat ensures RetryableFailure(checked(k), retryable) {
      IncludesInfix("", NotJsonMessage, "");
      assert "" + NotJsonMessage + "" == NotJsonMessage;
      assert checked(k).error.message == NotJsonMessage;
    }
    ExhaustsCap(s, checked, retryable, 0);
  }

  /** With the shipped settings a request that never gets a JSON body is attempted five times. */
  lemma ShippedNotJsonAttempts(exchange: nat -> Outcome, retryable: AxiosError -> bool,
                               parse: string -> Option<Value>)
    requires forall k :: NotJsonReply(exchange(k), parse)
    ensures Send(Overlay(HelperDefaults, ShippedSettings), exchange, retryable, parse).attempts == 5
  {
    NotJsonRetriedToCap(Overlay(HelperDefaults, ShippedSettings), exchange, retryable, parse);
  }

  /**
   * The polling interceptor is not attached: a report still in progress is a
   * successful first attempt, handed on with its status body.
   */
  lemma InProgressNotDetected(s: RaxSettings, exchange: nat -> Outcome,
                              retryable: AxiosError -> bool, parse: string -> Option<Value>)
    requires exchange(0).Resolved? && exchange(0).response.data.Obj?
    ensures SendAsWritten(s, exchange, retryable, parse) == Settled(exchange(0), 1)
    ensures Send(s, exchange, retryable, parse) == Settled(exchange(0), 1)
  {
  }
}
