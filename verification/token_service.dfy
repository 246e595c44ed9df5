/**
 * The token service as the stateful object it is: four mutable fields, a
 * clock it reads, a REST client it posts through, and getToken run inside
 * its retry envelope. Every method is proved to do what the episode
 * functions of TokenFlow describe.
 */
module TokenServices {
  import opened Wrappers
  import opened TokenCache
  import opened RetryPolicy
  import opened TokenFlow
  import opened Clocks

  /**
   * The REST client together with the remote endpoints behind it: a script
   * of outcomes consumed one per request, and a log of the requests made.
   */
  class AuthServer {
    var script: seq<Outcome>
    ghost var log: seq<Call>

    constructor (script: seq<Outcome>)
      ensures this.script == script && log == []
    {
      this.script := script;
      log := [];
    }

    /** POST one request and see what comes back. */
    method Post(call: Call) returns (outcome: Outcome)
      modifies this
      ensures (outcome, script) == Next(old(script))
      ensures log == old(log) + [call]
    {
      if |script| == 0 {
        outcome := Transport;
      } else {
        outcome := script[0];
        script := script[1..];
      }
      log := log + [call];
    }
  }

  /** The retry framework's sleeper: takes no time here, but remembers every wait it was asked for. */
  class Sleeper {
    ghost var slept: seq<nat>

    constructor ()
      ensures slept == []
    {
      slept := [];
    }

    method Sleep(ms: nat)
      modifies this
      ensures slept == old(slept) + [ms]
    {
      slept := slept + [ms];
    }
  }

  class TokenService {
    const authClientConfig: AuthClientConfig
    const clock: MutableClock
    const restClient: AuthServer

    var cachedToken: Option<string>
    var cachedRefreshToken: Option<string>
    var tokenExpiry: Option<int>
    var refreshTokenExpiry: Option<int>

    /** The four cached fields as one value. */
    function Snapshot(): Cache
      reads this
    {
      Cache(cachedToken, cachedRefreshToken, tokenExpiry, refreshTokenExpiry)
    }

    ghost predicate Valid()
      reads this
    {
      Consistent(Snapshot())
    }

    constructor (authClientConfig: AuthClientConfig, clock: MutableClock, restClient: AuthServer)
      ensures Valid() && Snapshot() == Empty
      ensures this.authClientConfig == authClientConfig && this.clock == clock && this.restClient == restClient
    {
      this.authClientConfig := authClientConfig;
      this.clock := clock;
      this.restClient := restClient;
      cachedToken := None;
      cachedRefreshToken := None;
      tokenExpiry := None;
      refreshTokenExpiry := None;
    }

    /** Whether the cached token may still be served at the clock's current instant. */
    function IsTokenValid(): (valid: bool)
      reads this, clock
      ensures valid <==> TokenCache.IsTokenValid(Snapshot(), clock.Instant())
    {
      tokenExpiry != None && clock.Instant() < tokenExpiry.value
    }

    /** Whether the cached refresh token may still be exchanged at the clock's current instant. */
    function IsRefreshTokenValid(): (valid: bool)
      reads this, clock
      ensures valid <==> TokenCache.IsRefreshTokenValid(Snapshot(), clock.Instant())
    {
      refreshTokenExpiry != None && clock.Instant() < refreshTokenExpiry.value
    }

    /** Replaces all four fields from one reply, received now. */
    method StoreResponse(response: AuthResponse)
      modifies this
      ensures Snapshot() == Store(response, clock.Instant())
    {
      cachedToken := Some(response.token);
      cachedRefreshToken := Some(response.refreshToken);
      tokenExpiry := Some(PlusSeconds(clock.Instant(), response.expiresIn));
      refreshTokenExpiry := Some(PlusSeconds(clock.Instant(), response.refreshTokenExpiresIn));
    }

    /** Logs in with the configured username and password. */
    method FetchToken() returns (r: Result<string, Failure>)
      requires Valid()
      modifies this, restClient
      ensures Valid()
      ensures var a := Exchange(Clear(old(Snapshot())), clock.Instant(), LoginCall(authClientConfig),
                                old(restClient.script));
        && Snapshot() == a.cache && r == a.result
        && restClient.script == a.rest && restClient.log == old(restClient.log) + a.calls
    {
      cachedToken := None;
      tokenExpiry := None;

      var request := AuthRequest(authClientConfig.username, authClientConfig.password);
      var outcome := restClient.Post(Call(TokenUrl, request));
      match outcome {
        case Ok(response) =>
          StoreResponse(response);
          r := Success(cachedToken.value);
        case Status(code) =>
          // the 401 handler turns a 401 into UnauthorizedRetry; any other status is an HTTP error
          r := Failure(StatusFailure(TokenUrl, code));
        case Transport =>
          r := Failure(ResourceAccess);
      }
    }

    /** Exchanges the cached refresh token for a new pair of tokens. */
    method FetchTokenUsingRefreshToken() returns (r: Result<string, Failure>)
      requires Valid()
      modifies this, restClient
      ensures Valid()
      ensures var a := Exchange(Clear(old(Snapshot())), clock.Instant(), RefreshCall(old(cachedRefreshToken)),
                                old(restClient.script));
        && Snapshot() == a.cache && r == a.result
        && restClient.script == a.rest && restClient.log == old(restClient.log) + a.calls
    {
      cachedToken := None;
      tokenExpiry := None;

      var request := RefreshTokenRequest(cachedRefreshToken);
      var outcome := restClient.Post(Call(RefreshTokenUrl, request));
      match outcome {
        case Ok(response) =>
          StoreResponse(response);
          r := Success(cachedToken.value);
        case Status(code) =>
          // no status handler on this request: every status is an HTTP error
          r := Failure(StatusFailure(RefreshTokenUrl, code));
        case Transport =>
          r := Failure(ResourceAccess);
      }
    }

    /** One run of the body of getToken. */
    method GetTokenAttempt() returns (r: Result<string, Failure>)
      requires Valid()
      modifies this, restClient
      ensures Valid()
      ensures var a := AttemptOnce(old(Snapshot()), clock.Instant(), authClientConfig, old(restClient.script));
        && Snapshot() == a.cache && r == a.result
        && restClient.script == a.rest && restClient.log == old(restClient.log) + a.calls
    {
      if IsTokenValid() {
        return Success(cachedToken.value);
      }
      if IsRefreshTokenValid() {
        r := FetchTokenUsingRefreshToken();
        return;
      }
      r := FetchToken();
    }

    /**
     * getToken as its callers see it: the body run again from the start
     * after each retryable failure, with a growing wait in between, until it
     * returns, throws an exception that is not retried, or has used
     * `maxAttempts` attempts.
     */
    method GetToken(sleeper: Sleeper, maxAttempts: nat) returns (r: Result<string, Failure>)
      requires Valid() && 1 <= maxAttempts
      modifies this, restClient, sleeper
      ensures Valid()
      ensures var e := GetTokenEpisode(old(Snapshot()), clock.Instant(), authClientConfig,
                                       old(restClient.script), maxAttempts);
        && Snapshot() == e.cache && r == e.result
        && restClient.script == e.rest && restClient.log == old(restClient.log) + e.calls
        && sleeper.slept == old(sleeper.slept) + e.delays
    {
      var now := clock.Instant();
      ghost var whole := GetTokenEpisode(Snapshot(), now, authClientConfig, restClient.script, maxAttempts);
      ghost var first := AttemptOnce(Snapshot(), now, authClientConfig, restClient.script);
      ghost var calls: seq<Call> := first.calls;
      ghost var delays: seq<nat> := [];

      var attempt := 1;
      var interval := InitialIntervalMs;
      r := GetTokenAttempt();
      // the cache and the unread script, as values
      ghost var cache, script := first.cache, first.rest;
      while !Stops(r, attempt, maxAttempts)
        invariant Consistent(cache) && Snapshot() == cache && restClient.script == script
        invariant 1 <= attempt <= maxAttempts
        invariant interval == Interval(attempt)
        invariant restClient.log == old(restClient.log) + calls
        invariant sleeper.slept == old(sleeper.slept) + delays
        invariant var rest := Continue(cache, r, now, authClientConfig, script, maxAttempts, attempt);
          whole == Episode(rest.cache, rest.result, calls + rest.calls, delays + rest.delays, rest.rest)
        decreases maxAttempts - attempt
      {
        ContinueStep(whole, calls, delays, cache, r, now, authClientConfig, script, maxAttempts, attempt);
        ghost var next := AttemptOnce(cache, now, authClientConfig, script);
        IntervalMatchesBackoff(attempt);

        var sleep := SleepFor(interval);
        if interval <= MaxIntervalMs {
          interval := interval * Multiplier;
        }
        sleeper.Sleep(sleep);
        attempt := attempt + 1;
        r := GetTokenAttempt();

        AppendAssociative(old(restClient.log), calls, next.calls);
        AppendAssociative(old(sleeper.slept), delays, [sleep]);
        calls := calls + next.calls;
        delays := delays + [sleep];
        cache, script := next.cache, next.rest;
      }
      ContinueStops(cache, r, now, authClientConfig, script, maxAttempts, attempt);
      assert calls + [] == calls && delays + [] == delays;
    }
  }
}
