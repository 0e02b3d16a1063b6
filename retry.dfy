/**
 * The retry policy of the HTTP client (lib/axios-helpers.js): the decision
 * `shouldRetry` that `createInstance` installs in retry-axios, and the merge
 * of the helper's defaults with the user's `rax` settings.
 */
module Retry {
  import opened Js
  import opened Http

  function Min(a: int, b: int): int {
    if a <= b then a else b
  }

  /** `s.startsWith(p)`. */
  predicate StartsWith(s: string, p: string) {
    |p| <= |s| && s[..|p|] == p
  }

  /** `s.includes(sub)`. */
  predicate Includes(s: string, sub: string)
    decreases |s|
  {
    StartsWith(s, sub) || (s != [] && Includes(s[1..], sub))
  }

  /** Any text that has `sub` somewhere inside it includes it. */
  lemma {:induction false} IncludesInfix(a: string, sub: string, b: string)
    ensures Includes(a + sub + b, sub)
    decreases |a|
  {
    var s := a + sub + b;
    if a == [] {
      assert s[..|sub|] == sub;
    } else {
      assert s[1..] == a[1..] + sub + b;
      IncludesInfix(a[1..], sub, b);
    }
  }

  /** `includes` only finds text that is there: a shorter text never includes a longer one. */
  lemma {:induction false} IncludesNeedsRoom(s: string, sub: string)
    requires |s| < |sub|
    ensures !Includes(s, sub)
    decreases |s|
  {
    if s != [] {
      IncludesNeedsRoom(s[1..], sub);
    }
  }

  /** What retry-axios hands to `shouldRetry`: the attempt counter and the two caps. */
  datatype RetryState = RetryState(currentRetryAttempt: int, retry: int, noResponseRetries: int)

  /**
   * `shouldRetry(err)` (lib/axios-helpers.js:45-90), with `retryable` standing
   * for retry-axios's own `shouldRetryRequest(err)`. Both caps are checked for
   * every kind of error, so the effective cap is the smaller of the two; below
   * it, an error reporting a non-JSON body is always retried and any other
   * error is retried exactly when the library would retry it.
   */
  function ShouldRetry(st: RetryState, err: AxiosError, retryable: bool): (r: bool)
    ensures st.currentRetryAttempt >= st.retry ==> !r
    ensures st.currentRetryAttempt >= st.noResponseRetries ==> !r
    ensures r ==> st.currentRetryAttempt < Min(st.retry, st.noResponseRetries)
    ensures st.currentRetryAttempt < Min(st.retry, st.noResponseRetries) && Includes(err.message, NotJsonMessage) ==> r
    ensures st.currentRetryAttempt < Min(st.retry, st.noResponseRetries) && !Includes(err.message, NotJsonMessage)
            ==> (r <==> retryable)
  {
    if st.currentRetryAttempt >= st.retry then false
    else if st.currentRetryAttempt >= st.noResponseRetries then false
    else if Includes(err.message, NotJsonMessage) then true
    else retryable
  }

  /** The `rax` settings the model tracks; None is a setting that is not given. */
  datatype RaxSettings = RaxSettings(
    retry: Option<int>,
    noResponseRetries: Option<int>,
    backoffType: Option<string>)

  /** `defaults.rax` of `createInstance` sets only the logger and the two hooks. */
  const HelperDefaults := RaxSettings(None, None, None)

  /** The `rax` settings of the default configuration (config/default.js:110-117). */
  const ShippedSettings := RaxSettings(Some(5), Some(4), Some("exponential"))

  function OrElse<T>(user: Option<T>, default: Option<T>): Option<T> {
    if user.Some? then user else default
  }

  /** `_.merge({}, defaults.rax, opts.rax)` (lib/axios-helpers.js:96): given user settings win. */
  function Overlay(defaults: RaxSettings, user: RaxSettings): (r: RaxSettings)
    ensures user.retry.Some? ==> r.retry == user.retry
    ensures user.retry.None? ==> r.retry == defaults.retry
    ensures user.noResponseRetries.Some? ==> r.noResponseRetries == user.noResponseRetries
    ensures user.noResponseRetries.None? ==> r.noResponseRetries == defaults.noResponseRetries
    ensures user.backoffType.Some? ==> r.backoffType == user.backoffType
    ensures user.backoffType.None? ==> r.backoffType == defaults.backoffType
  {
    RaxSettings(
      OrElse(user.retry, defaults.retry),
      OrElse(user.noResponseRetries, defaults.noResponseRetries),
      OrElse(user.backoffType, defaults.backoffType))
  }

  /** retry-axios's own fallbacks for caps nobody set. */
  const LibraryRetry := 3
  const LibraryNoResponseRetries := 2

  /** The state `shouldRetry` sees at a given attempt under the merged settings. */
  function StateAt(s: RaxSettings, attempt: int): RetryState {
    RetryState(attempt,
               if s.retry.Some? then s.retry.value else LibraryRetry,
               if s.noResponseRetries.Some? then s.noResponseRetries.value else LibraryNoResponseRetries)
  }

  /**
   * Under the shipped settings (retry 5, noResponseRetries 4) no error of any
   * kind is retried once four retries have been made, though `retry` says five.
   */
  lemma ShippedCapIsFour(attempt: int, err: AxiosError, retryable: bool)
    ensures var st := StateAt(Overlay(HelperDefaults, ShippedSettings), attempt);
            st.retry == 5 && st.noResponseRetries == 4
            && (attempt >= 4 ==> !ShouldRetry(st, err, retryable))
            && (0 <= attempt < 4 && Includes(err.message, NotJsonMessage) ==> ShouldRetry(st, err, retryable))
  {
  }

  /** The JSON interceptor's own error is always retried below both caps. */
  lemma NotJsonErrorRetried(st: RetryState, resp: Option<Response>, retryable: bool)
    requires st.currentRetryAttempt < st.retry && st.currentRetryAttempt < st.noResponseRetries
    ensures ShouldRetry(st, AxiosError(NotJsonMessage, None, resp, false), retryable)
  {
    IncludesInfix("", NotJsonMessage, "");
    assert "" + NotJsonMessage + "" == NotJsonMessage;
  }

  /** The polling interceptor's error is not taken for a non-JSON body: only the library decides it. */
  lemma InProgressErrorLeftToLibrary(st: RetryState, resp: Option<Response>, retryable: bool)
    requires st.currentRetryAttempt < st.retry && st.currentRetryAttempt < st.noResponseRetries
    ensures ShouldRetry(st, AxiosError(InProgressMessage, Some("ECONNABORTED"), resp, true), retryable) == retryable
  {
    IncludesNeedsRoom(InProgressMessage, NotJsonMessage);
  }
}
