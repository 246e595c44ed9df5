/**
 * What one call of getToken guarantees, proved of the episode function:
 * which endpoint is asked, how often, with what waits, and what the cache
 * holds afterwards.
 */
module TokenProperties {
  import opened Wrappers
  import opened TokenCache
  import opened RetryPolicy
  import opened TokenFlow

  /** The script after `n` outcomes have been consumed. */
  function Drop(script: seq<Outcome>, n: nat): seq<Outcome>
  {
    if n <= |script| then script[n..] else []
  }

  /** The request every attempt makes when the cached token is not valid. */
  function RequestFor(c: Cache, now: int, config: AuthClientConfig): Call
  {
    if IsRefreshTokenValid(c, now) then RefreshCall(c.cachedRefreshToken) else LoginCall(config)
  }

  /** One retry: the episode is this attempt's request followed by the episode from the next attempt. */
  lemma RetryUnfolds(c: Cache, now: int, config: AuthClientConfig,
                     script: seq<Outcome>, maxAttempts: nat, attempt: nat)
    requires Consistent(c) && 1 <= attempt <= maxAttempts
    requires !Stops(AttemptOnce(c, now, config, script).result, attempt, maxAttempts)
    ensures var a := AttemptOnce(c, now, config, script);
      && a.calls == [RequestFor(c, now, config)]
      && a.cache == Clear(c)
      && a.rest == Drop(script, 1)
      && var e := RetryFrom(a.cache, now, config, a.rest, maxAttempts, attempt + 1);
      RetryFrom(c, now, config, script, maxAttempts, attempt)
        == Episode(e.cache, e.result, a.calls + e.calls, [BackoffDelay(attempt)] + e.delays, e.rest)
  {
  }

  /** The last attempt: the episode is this attempt alone. */
  lemma RetryStops(c: Cache, now: int, config: AuthClientConfig,
                   script: seq<Outcome>, maxAttempts: nat, attempt: nat)
    requires Consistent(c) && 1 <= attempt <= maxAttempts
    requires Stops(AttemptOnce(c, now, config, script).result, attempt, maxAttempts)
    ensures var a := AttemptOnce(c, now, config, script);
      RetryFrom(c, now, config, script, maxAttempts, attempt) == Episode(a.cache, a.result, a.calls, [], a.rest)
  {
  }

  /**
   * Counting and pacing: at most one request per attempt and no more than
   * the attempts left, one outcome consumed per request, one wait between
   * consecutive requests following the back-off schedule, and a consistent
   * cache at the end.
   */
  lemma {:induction false} EpisodeShape(c: Cache, now: int, config: AuthClientConfig,
                                        script: seq<Outcome>, maxAttempts: nat, attempt: nat)
    requires Consistent(c) && 1 <= attempt <= maxAttempts
    ensures var e := RetryFrom(c, now, config, script, maxAttempts, attempt);
      && Consistent(e.cache)
      && |e.calls| <= maxAttempts - attempt + 1
      && e.rest == Drop(script, |e.calls|)
      && |e.delays| == (if |e.calls| == 0 then 0 else |e.calls| - 1)
      && (forall k :: 0 <= k < |e.delays| ==> e.delays[k] == BackoffDelay(attempt + k))
    decreases maxAttempts - attempt
  {
    var a := AttemptOnce(c, now, config, script);
    if !Stops(a.result, attempt, maxAttempts) {
      RetryUnfolds(c, now, config, script, maxAttempts, attempt);
      EpisodeShape(a.cache, now, config, a.rest, maxAttempts, attempt + 1);
      var e := RetryFrom(a.cache, now, config, a.rest, maxAttempts, attempt + 1);
      assert a.calls != [] && !IsTokenValid(a.cache, now);
      assert e.calls != [];
      var whole := RetryFrom(c, now, config, script, maxAttempts, attempt);
      assert whole.calls == a.calls + e.calls;
      assert whole.delays == [BackoffDelay(attempt)] + e.delays;
      if |script| > 0 {
        assert Drop(script, |whole.calls|) == Drop(script[1..], |e.calls|);
      }
    }
  }

  /**
   * A failed call leaves the token and its expiry cleared and the refresh
   * token as it was, so the token is then invalid.
   */
  lemma {:induction false} FailureLeavesTokenCleared(c: Cache, now: int, config: AuthClientConfig,
                                                     script: seq<Outcome>, maxAttempts: nat, attempt: nat)
    requires Consistent(c) && 1 <= attempt <= maxAttempts
    ensures var e := RetryFrom(c, now, config, script, maxAttempts, attempt);
      e.result.Failure? ==> e.cache == Clear(c) && !IsTokenValid(e.cache, now)
    decreases maxAttempts - attempt
  {
    var a := AttemptOnce(c, now, config, script);
    if !Stops(a.result, attempt, maxAttempts) {
      FailureLeavesTokenCleared(a.cache, now, config, a.rest, maxAttempts, attempt + 1);
      assert Clear(a.cache) == Clear(c);
    }
  }

  /** A retryable failure reaches the caller only once every attempt has been used. */
  lemma {:induction false} RetryableFailureExhaustsAttempts(c: Cache, now: int, config: AuthClientConfig,
                                                            script: seq<Outcome>, maxAttempts: nat, attempt: nat)
    requires Consistent(c) && 1 <= attempt <= maxAttempts
    ensures var e := RetryFrom(c, now, config, script, maxAttempts, attempt);
      e.result.Failure? && IsRetryable(e.result.error) ==> |e.calls| == maxAttempts - attempt + 1
    decreases maxAttempts - attempt
  {
    var a := AttemptOnce(c, now, config, script);
    if !Stops(a.result, attempt, maxAttempts) {
      RetryUnfolds(c, now, config, script, maxAttempts, attempt);
      RetryableFailureExhaustsAttempts(a.cache, now, config, a.rest, maxAttempts, attempt + 1);
    }
  }

  /**
   * Whatever failure reaches the caller, retried or not, is the exception
   * of the last attempt: the one for the outcome its request met, a 401
   * wrapper, an HTTP error or a transport error.
   */
  lemma {:induction false} FailureIsLastOutcome(c: Cache, now: int, config: AuthClientConfig,
                                                script: seq<Outcome>, maxAttempts: nat, attempt: nat)
    requires Consistent(c) && 1 <= attempt <= maxAttempts
    ensures var e := RetryFrom(c, now, config, script, maxAttempts, attempt);
      e.result.Failure? ==>
        && |e.calls| >= 1
        && var last := Next(Drop(script, |e.calls| - 1)).0;
        && !last.Ok?
        && e.result.error == FailureFor(e.calls[|e.calls| - 1].endpoint, last)
    decreases maxAttempts - attempt
  {
    var a := AttemptOnce(c, now, config, script);
    var whole := RetryFrom(c, now, config, script, maxAttempts, attempt);
    if Stops(a.result, attempt, maxAttempts) {
      RetryStops(c, now, config, script, maxAttempts, attempt);
      assert whole.calls == a.calls && whole.result == a.result;
      assert Drop(script, 0) == script;
    } else {
      RetryUnfolds(c, now, config, script, maxAttempts, attempt);
      FailureIsLastOutcome(a.cache, now, config, a.rest, maxAttempts, attempt + 1);
      var e := RetryFrom(a.cache, now, config, a.rest, maxAttempts, attempt + 1);
      assert whole.calls == a.calls + e.calls && whole.result == e.result;
      if e.result.Failure? {
        var k := |e.calls|;
        DropAfterOne(script, k - 1);
        LastOfAppend(a.calls, e.calls);
        assert |whole.calls| - 1 == k;
      }
    }
  }

  lemma DropAfterOne(script: seq<Outcome>, n: nat)
    ensures Drop(Drop(script, 1), n) == Drop(script, n + 1)
  {
    if |script| > 0 && n + 1 <= |script| {
      assert script[1..][n..] == script[n + 1..];
    }
  }

  lemma LastOfAppend<T>(s: seq<T>, t: seq<T>)
    requires |t| >= 1
    ensures (s + t)[|s + t| - 1] == t[|t| - 1]
  {
  }

  /**
   * A failure that is not retried is the exception for the error status
   * answered to the last request.
   */
  lemma {:induction false} FatalFailureIsLastStatus(c: Cache, now: int, config: AuthClientConfig,
                                                    script: seq<Outcome>, maxAttempts: nat, attempt: nat)
    requires Consistent(c) && 1 <= attempt <= maxAttempts
    ensures var e := RetryFrom(c, now, config, script, maxAttempts, attempt);
      e.result.Failure? && !IsRetryable(e.result.error) ==>
        && 1 <= |e.calls| <= |script|
        && script[|e.calls| - 1].Status?
        && e.result.error == StatusFailure(e.calls[|e.calls| - 1].endpoint, script[|e.calls| - 1].code)
    decreases maxAttempts - attempt
  {
    var a := AttemptOnce(c, now, config, script);
    if !Stops(a.result, attempt, maxAttempts) {
      RetryUnfolds(c, now, config, script, maxAttempts, attempt);
      FatalFailureIsLastStatus(a.cache, now, config, a.rest, maxAttempts, attempt + 1);
      var e := RetryFrom(a.cache, now, config, a.rest, maxAttempts, attempt + 1);
      if e.result.Failure? && !IsRetryable(e.result.error) {
        assert |a.rest| > 0;
        assert script[1 + |e.calls| - 1] == a.rest[|e.calls| - 1];
      }
    }
  }

  /**
   * A successful call either served the cached token without a request, or
   * stored all four fields from the reply to its last request and returned
   * that reply's token.
   */
  lemma {:induction false} SuccessStoresLastReply(c: Cache, now: int, config: AuthClientConfig,
                                                  script: seq<Outcome>, maxAttempts: nat, attempt: nat)
    requires Consistent(c) && 1 <= attempt <= maxAttempts
    ensures var e := RetryFrom(c, now, config, script, maxAttempts, attempt);
      e.result.Success? ==>
        || (e.calls == [] && IsTokenValid(c, now) && e.cache == c && e.result.value == c.cachedToken.value)
        || (&& 1 <= |e.calls| <= |script|
            && script[|e.calls| - 1].Ok?
            && e.cache == Store(script[|e.calls| - 1].response, now)
            && e.result.value == script[|e.calls| - 1].response.token)
    decreases maxAttempts - attempt
  {
    var a := AttemptOnce(c, now, config, script);
    if !Stops(a.result, attempt, maxAttempts) {
      RetryUnfolds(c, now, config, script, maxAttempts, attempt);
      SuccessStoresLastReply(a.cache, now, config, a.rest, maxAttempts, attempt + 1);
      var e := RetryFrom(a.cache, now, config, a.rest, maxAttempts, attempt + 1);
      if e.result.Success? {
        assert !IsTokenValid(a.cache, now);
        assert |a.rest| > 0;
        assert script[1 + |e.calls| - 1] == a.rest[|e.calls| - 1];
      }
    }
  }

  /**
   * Once the cached token is invalid, every attempt of the call sends the
   * same request: the cached refresh token to the refresh URL when that
   * token is valid, otherwise the configured credentials to the token URL.
   */
  lemma {:induction false} SameRequestEveryAttempt(c: Cache, now: int, config: AuthClientConfig,
                                                   script: seq<Outcome>, maxAttempts: nat, attempt: nat)
    requires Consistent(c) && 1 <= attempt <= maxAttempts
    requires !IsTokenValid(c, now)
    ensures var e := RetryFrom(c, now, config, script, maxAttempts, attempt);
      && |e.calls| >= 1
      && forall k :: 0 <= k < |e.calls| ==> e.calls[k] == RequestFor(c, now, config)
    decreases maxAttempts - attempt
  {
    var a := AttemptOnce(c, now, config, script);
    assert a.calls == [RequestFor(c, now, config)];
    if !Stops(a.result, attempt, maxAttempts) {
      SameRequestEveryAttempt(a.cache, now, config, a.rest, maxAttempts, attempt + 1);
      assert a.cache == Clear(c);
      assert RequestFor(a.cache, now, config) == RequestFor(c, now, config);
    }
  }
}
