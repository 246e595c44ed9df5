/**
 * The behaviours the token service's tests exercise, proved for every
 * cache state, clock reading and script that sets them up.
 */
module TokenScenarios {
  import opened Wrappers
  import opened TokenCache
  import opened RetryPolicy
  import opened TokenFlow
  import opened TokenProperties

  /**
   * A call makes no request exactly when the cached token is valid, and
   * then returns the cached token and leaves everything as it was.
   */
  lemma CachedTokenServed(c: Cache, now: int, config: AuthClientConfig, script: seq<Outcome>, maxAttempts: nat)
    requires Consistent(c) && 1 <= maxAttempts
    ensures var e := GetTokenEpisode(c, now, config, script, maxAttempts);
      && (e.calls == [] <==> IsTokenValid(c, now))
      && (IsTokenValid(c, now) ==> e == Episode(c, Success(c.cachedToken.value), [], [], script))
  {
    if IsTokenValid(c, now) {
      RetryStops(c, now, config, script, maxAttempts, 1);
    } else {
      SameRequestEveryAttempt(c, now, config, script, maxAttempts, 1);
    }
  }

  /**
   * When every reply in the script grants a token for some positive time, a
   * successful call followed by another at the same instant returns the
   * same token again, from the cache, with no request.
   */
  lemma RepeatedCallServedFromCache(c: Cache, now: int, config: AuthClientConfig, script: seq<Outcome>,
                                    maxAttempts: nat, nextMaxAttempts: nat)
    requires Consistent(c) && 1 <= maxAttempts && 1 <= nextMaxAttempts
    requires forall k :: 0 <= k < |script| && script[k].Ok? ==> script[k].response.expiresIn > 0
    ensures var first := GetTokenEpisode(c, now, config, script, maxAttempts);
      first.result.Success? ==>
        && Consistent(first.cache)
        && GetTokenEpisode(first.cache, now, config, first.rest, nextMaxAttempts)
             == Episode(first.cache, first.result, [], [], first.rest)
  {
    var first := GetTokenEpisode(c, now, config, script, maxAttempts);
    SuccessStoresLastReply(c, now, config, script, maxAttempts, 1);
    EpisodeShape(c, now, config, script, maxAttempts, 1);
    if first.result.Success? {
      assert IsTokenValid(first.cache, now) && first.result.value == first.cache.cachedToken.value;
      CachedTokenServed(first.cache, now, config, first.rest, nextMaxAttempts);
    }
  }

  /**
   * With the token expired and the refresh token valid, every request of
   * the call carries the cached refresh token to the refresh URL; the token
   * URL is never asked.
   */
  lemma RefreshTokenUsedWhileValid(c: Cache, now: int, config: AuthClientConfig, script: seq<Outcome>,
                                   maxAttempts: nat)
    requires Consistent(c) && 1 <= maxAttempts
    requires !IsTokenValid(c, now) && IsRefreshTokenValid(c, now)
    ensures var e := GetTokenEpisode(c, now, config, script, maxAttempts);
      && |e.calls| >= 1
      && forall k :: 0 <= k < |e.calls| ==>
           e.calls[k] == Call(RefreshTokenUrl, RefreshTokenRequest(c.cachedRefreshToken))
           && e.calls[k].endpoint != TokenUrl
  {
    SameRequestEveryAttempt(c, now, config, script, maxAttempts, 1);
  }

  /**
   * With both tokens expired, every request of the call carries the
   * configured username and password to the token URL; the refresh URL is
   * never asked.
   */
  lemma CredentialsUsedWhenBothExpired(c: Cache, now: int, config: AuthClientConfig, script: seq<Outcome>,
                                       maxAttempts: nat)
    requires Consistent(c) && 1 <= maxAttempts
    requires !IsTokenValid(c, now) && !IsRefreshTokenValid(c, now)
    ensures var e := GetTokenEpisode(c, now, config, script, maxAttempts);
      && |e.calls| >= 1
      && forall k :: 0 <= k < |e.calls| ==>
           e.calls[k] == Call(TokenUrl, AuthRequest(config.username, config.password))
           && e.calls[k].endpoint != RefreshTokenUrl
  {
    SameRequestEveryAttempt(c, now, config, script, maxAttempts, 1);
  }

  /**
   * Logging in, a 401 and then a reply: two requests to the token URL, one
   * wait of 1000 ms, the reply stored and its token returned.
   */
  lemma UnauthorizedIsRetried(c: Cache, now: int, config: AuthClientConfig, script: seq<Outcome>,
                              maxAttempts: nat)
    requires Consistent(c) && 2 <= maxAttempts
    requires !IsTokenValid(c, now) && !IsRefreshTokenValid(c, now)
    requires |script| >= 2 && script[0] == Status(401) && script[1].Ok?
    ensures GetTokenEpisode(c, now, config, script, maxAttempts)
      == Episode(Store(script[1].response, now), Success(script[1].response.token),
                 [LoginCall(config), LoginCall(config)], [1000], script[2..])
  {
    RetryUnfolds(c, now, config, script, maxAttempts, 1);
    assert Clear(c).refreshTokenExpiry == c.refreshTokenExpiry;
  }

  /**
   * Logging in and answered 401 on every attempt: every attempt is used,
   * and the 401 wrapper of the last attempt reaches the caller.
   */
  lemma UnauthorizedExhaustsAttempts(c: Cache, now: int, config: AuthClientConfig, script: seq<Outcome>,
                                     maxAttempts: nat)
    requires Consistent(c) && 1 <= maxAttempts
    requires !IsTokenValid(c, now) && !IsRefreshTokenValid(c, now)
    requires |script| >= maxAttempts && forall k :: 0 <= k < maxAttempts ==> script[k] == Status(401)
    ensures var e := GetTokenEpisode(c, now, config, script, maxAttempts);
      && e.result == Failure(UnauthorizedRetry)
      && |e.calls| == maxAttempts
      && e.cache == Clear(c)
  {
    var e := GetTokenEpisode(c, now, config, script, maxAttempts);
    EpisodeShape(c, now, config, script, maxAttempts, 1);
    SameRequestEveryAttempt(c, now, config, script, maxAttempts, 1);
    SuccessStoresLastReply(c, now, config, script, maxAttempts, 1);
    FailureIsLastOutcome(c, now, config, script, maxAttempts, 1);
    FailureLeavesTokenCleared(c, now, config, script, maxAttempts, 1);
    var n := |e.calls|;
    assert e.calls[n - 1] == LoginCall(config);
    assert Drop(script, n - 1)[0] == script[n - 1] == Status(401);
    assert e.result.Failure?;
    assert e.result.error == UnauthorizedRetry;
    RetryableFailureExhaustsAttempts(c, now, config, script, maxAttempts, 1);
  }

  /**
   * Logging in, any error status other than 401 (a 403, a 5xx): one
   * request, no wait, and the client or server error is thrown with the
   * token cleared.
   */
  lemma OtherStatusIsFatal(c: Cache, now: int, config: AuthClientConfig, script: seq<Outcome>,
                           maxAttempts: nat)
    requires Consistent(c) && 1 <= maxAttempts
    requires !IsTokenValid(c, now) && !IsRefreshTokenValid(c, now)
    requires |script| >= 1 && script[0].Status? && script[0].code != 401
    ensures var e := GetTokenEpisode(c, now, config, script, maxAttempts);
      && e == Episode(Clear(c), Failure(StatusFailure(TokenUrl, script[0].code)), [LoginCall(config)], [], script[1..])
      && !IsRetryable(e.result.error)
      && (e.result.error.HttpClientError? || e.result.error.HttpServerError?)
  {
    RetryStops(c, now, config, script, maxAttempts, 1);
  }

  /**
   * Refreshing, any error status at all, 401 included: one request, no
   * wait, and the client or server error is thrown.
   */
  lemma RefreshStatusIsFatal(c: Cache, now: int, config: AuthClientConfig, script: seq<Outcome>,
                             maxAttempts: nat)
    requires Consistent(c) && 1 <= maxAttempts
    requires !IsTokenValid(c, now) && IsRefreshTokenValid(c, now)
    requires |script| >= 1 && script[0].Status?
    ensures var e := GetTokenEpisode(c, now, config, script, maxAttempts);
      && e == Episode(Clear(c), Failure(StatusFailure(RefreshTokenUrl, script[0].code)),
                      [RefreshCall(c.cachedRefreshToken)], [], script[1..])
      && !IsRetryable(e.result.error)
      && (script[0].code == 401 ==> e.result.error == HttpClientError(401))
  {
    RetryStops(c, now, config, script, maxAttempts, 1);
  }

  /**
   * Two dropped connections and then a reply, with the default three
   * attempts or more: three identical requests, waits of 1000 ms and then
   * 2000 ms, the reply stored and its token returned.
   */
  lemma TransportFailuresAreRetried(c: Cache, now: int, config: AuthClientConfig, script: seq<Outcome>,
                                    maxAttempts: nat)
    requires Consistent(c) && DefaultMaxAttempts <= maxAttempts
    requires !IsTokenValid(c, now)
    requires |script| >= 3 && script[0] == Transport && script[1] == Transport && script[2].Ok?
    ensures var call := RequestFor(c, now, config);
      GetTokenEpisode(c, now, config, script, maxAttempts)
        == Episode(Store(script[2].response, now), Success(script[2].response.token),
                   [call, call, call], [1000, 2000], script[3..])
  {
    var call := RequestFor(c, now, config);
    var cleared := Clear(c);
    assert Clear(cleared) == cleared;
    assert RequestFor(cleared, now, config) == call;
    assert !IsTokenValid(cleared, now);
    // attempts 1 and 2 drop the connection; attempt 3 gets the reply
    RetryUnfolds(c, now, config, script, maxAttempts, 1);
    RetryUnfolds(cleared, now, config, script[1..], maxAttempts, 2);
    assert script[1..][1..] == script[2..];
    RetryStops(cleared, now, config, script[2..], maxAttempts, 3);
    assert script[2..][1..] == script[3..];
  }

  /**
   * The same number of dropped connections as attempts: every attempt is
   * used and the transport failure reaches the caller, token cleared.
   */
  lemma TransportFailuresExhaustAttempts(c: Cache, now: int, config: AuthClientConfig, script: seq<Outcome>,
                                         maxAttempts: nat)
    requires Consistent(c) && 1 <= maxAttempts
    requires !IsTokenValid(c, now)
    requires forall k :: 0 <= k < |script| ==> script[k] == Transport
    ensures var e := GetTokenEpisode(c, now, config, script, maxAttempts);
      && e.result == Failure(ResourceAccess)
      && |e.calls| == maxAttempts
      && e.cache == Clear(c)
  {
    var e := GetTokenEpisode(c, now, config, script, maxAttempts);
    FailureLeavesTokenCleared(c, now, config, script, maxAttempts, 1);
    RetryableFailureExhaustsAttempts(c, now, config, script, maxAttempts, 1);
    SuccessStoresLastReply(c, now, config, script, maxAttempts, 1);
    FatalFailureIsLastStatus(c, now, config, script, maxAttempts, 1);
    SameRequestEveryAttempt(c, now, config, script, maxAttempts, 1);
    assert e.result.Failure?;
    assert IsRetryable(e.result.error);
    ResultOfTransportOnly(c, now, config, script, maxAttempts, 1);
  }

  /** When the script holds nothing but dropped connections, every failure is a transport failure. */
  lemma {:induction false} ResultOfTransportOnly(c: Cache, now: int, config: AuthClientConfig,
                                                 script: seq<Outcome>, maxAttempts: nat, attempt: nat)
    requires Consistent(c) && 1 <= attempt <= maxAttempts
    requires forall k :: 0 <= k < |script| ==> script[k] == Transport
    ensures var e := RetryFrom(c, now, config, script, maxAttempts, attempt);
      e.result.Failure? ==> e.result.error == ResourceAccess
    decreases maxAttempts - attempt
  {
    var a := AttemptOnce(c, now, config, script);
    if !Stops(a.result, attempt, maxAttempts) {
      RetryUnfolds(c, now, config, script, maxAttempts, attempt);
      ResultOfTransportOnly(a.cache, now, config, a.rest, maxAttempts, attempt + 1);
    }
  }

  /**
   * A first call on a fresh service logs in once and caches the reply;
   * once the clock has moved on by `elapsed` seconds, at or past both
   * expiries, the next call logs in again and returns the new token.
   */
  lemma LoginAgainOnceBothExpired(config: AuthClientConfig, now: int, elapsed: int,
                                  script: seq<Outcome>, maxAttempts: nat)
    requires 1 <= maxAttempts
    requires |script| >= 2 && script[0].Ok? && script[1].Ok?
    requires script[0].response.expiresIn <= elapsed && script[0].response.refreshTokenExpiresIn <= elapsed
    ensures var first := GetTokenEpisode(Empty, now, config, script, maxAttempts);
      && first == Episode(Store(script[0].response, now), Success(script[0].response.token),
                          [LoginCall(config)], [], script[1..])
      && var second := GetTokenEpisode(first.cache, now + elapsed * NanosPerSecond, config, first.rest, maxAttempts);
      && second.result == Success(script[1].response.token)
      && second.calls == [LoginCall(config)]
  {
    RetryStops(Empty, now, config, script, maxAttempts, 1);
    var cache := Store(script[0].response, now);
    var later := now + elapsed * NanosPerSecond;
    assert !IsTokenValid(cache, later) && !IsRefreshTokenValid(cache, later);
    RetryStops(cache, later, config, script[1..], maxAttempts, 1);
  }

  /**
   * As above, but with the clock moved to a point where the token has
   * expired and the refresh token has not: the second call exchanges the
   * refresh token from the first reply and returns the token of the second.
   */
  lemma RefreshOnceTokenExpired(config: AuthClientConfig, now: int, elapsed: int,
                                script: seq<Outcome>, maxAttempts: nat)
    requires 1 <= maxAttempts
    requires |script| >= 2 && script[0].Ok? && script[1].Ok?
    requires script[0].response.expiresIn <= elapsed < script[0].response.refreshTokenExpiresIn
    ensures var first := GetTokenEpisode(Empty, now, config, script, maxAttempts);
      && first == Episode(Store(script[0].response, now), Success(script[0].response.token),
                          [LoginCall(config)], [], script[1..])
      && var second := GetTokenEpisode(first.cache, now + elapsed * NanosPerSecond, config, first.rest, maxAttempts);
      && second.result == Success(script[1].response.token)
      && second.calls == [RefreshCall(Some(script[0].response.refreshToken))]
  {
    RetryStops(Empty, now, config, script, maxAttempts, 1);
    var cache := Store(script[0].response, now);
    var later := now + elapsed * NanosPerSecond;
    assert !IsTokenValid(cache, later) && IsRefreshTokenValid(cache, later);
    RetryStops(cache, later, config, script[1..], maxAttempts, 1);
  }
}
