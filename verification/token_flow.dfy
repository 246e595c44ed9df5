/**
 * What one call of TokenService.getToken does, as functions: the three-way
 * decision, the exchange with an endpoint, and the retry envelope that
 * re-runs the whole decision after a retryable failure.
 *
 * The remote endpoints are an oracle: a script of outcomes, one consumed
 * per request, whichever endpoint the request goes to. A script with
 * nothing left answers as an unreachable server would.
 */
module TokenFlow {
  import opened Wrappers
  import opened TokenCache
  import opened RetryPolicy

  /** The configured credentials; the two endpoint URLs are the `Endpoint` values. */
  datatype AuthClientConfig = AuthClientConfig(username: string, password: string)

  datatype Endpoint = TokenUrl | RefreshTokenUrl

  /** The body of a request: credentials for the token URL, the refresh token for the refresh URL. */
  datatype Request =
    | AuthRequest(username: string, password: string)
    | RefreshTokenRequest(refreshToken: Option<string>)

  /** One POST: where it went and what it carried. */
  datatype Call = Call(endpoint: Endpoint, request: Request)

  /** The HTTP statuses the REST client turns into an exception. */
  type ErrorStatus = s: int | 400 <= s < 600 witness 400

  /** What the remote side does with one request. */
  datatype Outcome =
    | Ok(response: AuthResponse)
    | Status(code: ErrorStatus)
    | Transport

  /** The exceptions a request can end in. */
  datatype Failure =
    | UnauthorizedRetry
    | HttpClientError(status: int)
    | HttpServerError(status: int)
    | ResourceAccess

  function ClassOf(f: Failure): ExceptionClass
  {
    match f
    case UnauthorizedRetry => UnauthorizedRetryException
    case HttpClientError(_) => HttpClientErrorException
    case HttpServerError(_) => HttpServerErrorException
    case ResourceAccess => ResourceAccessException
  }

  /** Whether the retry envelope starts another attempt after `f`: the two exceptions it retries. */
  predicate IsRetryable(f: Failure)
  {
    f.UnauthorizedRetry? || f.ResourceAccess?
  }

  /**
   * The two retried exceptions are exactly those the retry annotation's
   * lists classify as retryable: the 401 signal and the transport error
   * (a RestClientException) are retried, while the HTTP client and server
   * errors are excluded although they are RestClientExceptions too.
   */
  lemma RetryableIsClassified(f: Failure)
    ensures IsRetryable(f) <==> CanRetry(ClassOf(f))
  {
  }

  /**
   * The exception an error status becomes. Only the token URL has the 401
   * handler; every other status, and any status from the refresh URL, is a
   * client (4xx) or server (5xx) error. Retried exactly when the token URL
   * answered 401.
   */
  function StatusFailure(endpoint: Endpoint, code: ErrorStatus): (f: Failure)
    ensures IsRetryable(f) <==> endpoint == TokenUrl && code == 401
    ensures !f.ResourceAccess? && (f.UnauthorizedRetry? || f.status == code)
    ensures f.HttpClientError? ==> code < 500
    ensures f.HttpServerError? ==> code >= 500
  {
    if endpoint == TokenUrl && code == 401 then UnauthorizedRetry
    else if code < 500 then HttpClientError(code)
    else HttpServerError(code)
  }

  /**
   * The exception a request to `endpoint` ends in when the remote side
   * answers with anything but a reply: the exception for the error status,
   * or the transport error.
   */
  function FailureFor(endpoint: Endpoint, o: Outcome): Failure
    requires !o.Ok?
  {
    if o.Status? then StatusFailure(endpoint, o.code) else ResourceAccess
  }

  /** The next outcome of the script, and what remains of it. */
  function Next(script: seq<Outcome>): (Outcome, seq<Outcome>)
  {
    if |script| == 0 then (Transport, []) else (script[0], script[1..])
  }

  /** The three ways one attempt can go. */
  datatype Path = ServeCached | UseRefreshToken | Authenticate

  function ChoosePath(c: Cache, now: int): (p: Path)
  {
    if IsTokenValid(c, now) then ServeCached
    else if IsRefreshTokenValid(c, now) then UseRefreshToken
    else Authenticate
  }

  /** The request sent with username and password. */
  function LoginCall(config: AuthClientConfig): Call
  {
    Call(TokenUrl, AuthRequest(config.username, config.password))
  }

  /** The request sent with the cached refresh token. */
  function RefreshCall(refreshToken: Option<string>): Call
  {
    Call(RefreshTokenUrl, RefreshTokenRequest(refreshToken))
  }

  /** The state after one attempt: the cache, what getToken returned or threw, the requests made. */
  datatype Attempt = Attempt(cache: Cache, result: Result<string, Failure>, calls: seq<Call>, rest: seq<Outcome>)

  /**
   * fetchToken and fetchTokenUsingRefreshToken after their first two lines:
   * `cleared` is the cache with the token dropped; one request goes out; a
   * reply replaces all four fields and its token is returned, anything else
   * is thrown and leaves the cache cleared.
   */
  function Exchange(cleared: Cache, now: int, call: Call, script: seq<Outcome>): (a: Attempt)
    ensures a.calls == [call]
    ensures a.rest == Next(script).1
    ensures a.result.Success? <==> Next(script).0.Ok?
    ensures a.result.Success? ==>
      a.cache == Store(Next(script).0.response, now) && a.result.value == Next(script).0.response.token
    ensures a.result.Failure? ==> a.cache == cleared && a.result.error == FailureFor(call.endpoint, Next(script).0)
  {
    var (outcome, rest) := Next(script);
    match outcome
    case Ok(response) => Attempt(Store(response, now), Success(response.token), [call], rest)
    case Status(code) => Attempt(cleared, Failure(StatusFailure(call.endpoint, code)), [call], rest)
    case Transport => Attempt(cleared, Failure(ResourceAccess), [call], rest)
  }

  /** The body of getToken: serve the cache, or exchange the refresh token, or log in. */
  function AttemptOnce(c: Cache, now: int, config: AuthClientConfig, script: seq<Outcome>): (a: Attempt)
    requires Consistent(c)
    ensures Consistent(a.cache)
    ensures ChoosePath(c, now) == ServeCached <==> a.calls == []
    ensures a.calls == [] ==> a.cache == c && a.rest == script && a.result == Success(c.cachedToken.value)
    ensures a.result.Failure? ==>
      |a.calls| == 1 && !Next(script).0.Ok? && a.result.error == FailureFor(a.calls[0].endpoint, Next(script).0)
  {
    match ChoosePath(c, now)
    case ServeCached => Attempt(c, Success(c.cachedToken.value), [], script)
    case UseRefreshToken => Exchange(Clear(c), now, RefreshCall(Clear(c).cachedRefreshToken), script)
    case Authenticate => Exchange(Clear(c), now, LoginCall(config), script)
  }

  /** The whole of one getToken call as the caller sees it, with the waits between attempts. */
  datatype Episode = Episode(
    cache: Cache,
    result: Result<string, Failure>,
    calls: seq<Call>,
    delays: seq<nat>,
    rest: seq<Outcome>)

  /** Whether the envelope gives up or returns after attempt number `attempt`. */
  predicate Stops(result: Result<string, Failure>, attempt: nat, maxAttempts: nat)
  {
    result.Success? || !IsRetryable(result.error) || attempt >= maxAttempts
  }

  /**
   * The rest of an episode once attempt number `attempt` has ended with
   * `result`, leaving `c` and `script`: return or rethrow, or wait and run
   * the whole decision again.
   */
  function Continue(c: Cache, result: Result<string, Failure>, now: int, config: AuthClientConfig,
                    script: seq<Outcome>, maxAttempts: nat, attempt: nat): Episode
    requires Consistent(c) && 1 <= attempt <= maxAttempts
    decreases maxAttempts - attempt, 0
  {
    if Stops(result, attempt, maxAttempts) then Episode(c, result, [], [], script)
    else
      var e := RetryFrom(c, now, config, script, maxAttempts, attempt + 1);
      Episode(e.cache, e.result, e.calls, [BackoffDelay(attempt)] + e.delays, e.rest)
  }

  /** Attempt number `attempt` and all those after it. */
  function RetryFrom(c: Cache, now: int, config: AuthClientConfig, script: seq<Outcome>,
                     maxAttempts: nat, attempt: nat): Episode
    requires Consistent(c) && 1 <= attempt <= maxAttempts
    decreases maxAttempts - attempt, 1
  {
    var a := AttemptOnce(c, now, config, script);
    var e := Continue(a.cache, a.result, now, config, a.rest, maxAttempts, attempt);
    Episode(e.cache, e.result, a.calls + e.calls, e.delays, e.rest)
  }

  /** After a retryable failure with attempts left: wait, then the whole decision again. */
  lemma ContinueRetries(c: Cache, result: Result<string, Failure>, now: int, config: AuthClientConfig,
                        script: seq<Outcome>, maxAttempts: nat, attempt: nat)
    requires Consistent(c) && 1 <= attempt <= maxAttempts && !Stops(result, attempt, maxAttempts)
    ensures var a := AttemptOnce(c, now, config, script);
      var e := Continue(a.cache, a.result, now, config, a.rest, maxAttempts, attempt + 1);
      Continue(c, result, now, config, script, maxAttempts, attempt)
        == Episode(e.cache, e.result, a.calls + e.calls, [BackoffDelay(attempt)] + e.delays, e.rest)
  {
  }

  /**
   * One turn of the retry loop: an episode split as "done so far" plus the
   * continuation after attempt `attempt` is the same episode split one
   * attempt later.
   */
  lemma ContinueStep(whole: Episode, calls: seq<Call>, delays: seq<nat>,
                     c: Cache, result: Result<string, Failure>, now: int, config: AuthClientConfig,
                     script: seq<Outcome>, maxAttempts: nat, attempt: nat)
    requires Consistent(c) && 1 <= attempt <= maxAttempts && !Stops(result, attempt, maxAttempts)
    requires var pending := Continue(c, result, now, config, script, maxAttempts, attempt);
      whole == Episode(pending.cache, pending.result, calls + pending.calls, delays + pending.delays, pending.rest)
    ensures var a := AttemptOnce(c, now, config, script);
      var after := Continue(a.cache, a.result, now, config, a.rest, maxAttempts, attempt + 1);
      whole == Episode(after.cache, after.result, (calls + a.calls) + after.calls,
                       (delays + [BackoffDelay(attempt)]) + after.delays, after.rest)
  {
  }

  lemma AppendAssociative<T>(a: seq<T>, b: seq<T>, c: seq<T>)
    ensures a + (b + c) == (a + b) + c
  {
  }

  /** After a success, a failure that is not retried, or the last attempt: nothing more happens. */
  lemma ContinueStops(c: Cache, result: Result<string, Failure>, now: int, config: AuthClientConfig,
                      script: seq<Outcome>, maxAttempts: nat, attempt: nat)
    requires Consistent(c) && 1 <= attempt <= maxAttempts && Stops(result, attempt, maxAttempts)
    ensures Continue(c, result, now, config, script, maxAttempts, attempt) == Episode(c, result, [], [], script)
  {
  }

  /** One call of getToken through its retry envelope. */
  function GetTokenEpisode(c: Cache, now: int, config: AuthClientConfig, script: seq<Outcome>,
                           maxAttempts: nat): Episode
    requires Consistent(c) && 1 <= maxAttempts
  {
    RetryFrom(c, now, config, script, maxAttempts, 1)
  }
}
