/**
 * The token service driven the way its callers drive it: a fresh service
 * over a settable clock and a scripted server, asked for a token, the clock
 * moved on, and asked again.
 */
module ServiceScenarios {
  import opened Wrappers
  import opened TokenCache
  import opened RetryPolicy
  import opened TokenFlow
  import opened TokenScenarios
  import opened Clocks
  import opened TokenServices

  /**
   * Both tokens granted for no longer than `elapsed` seconds: the second
   * call, `elapsed` seconds later, logs in again and returns the new token.
   */
  method TokenRenewedAfterExpiry(config: AuthClientConfig, start: int, zone: ZoneId, elapsed: int,
                                 first: AuthResponse, second: AuthResponse)
    returns (token: Result<string, Failure>, renewed: Result<string, Failure>, ghost requests: seq<Call>)
    requires first.expiresIn <= elapsed && first.refreshTokenExpiresIn <= elapsed
    ensures token == Success(first.token) && renewed == Success(second.token)
    ensures requests == [LoginCall(config), LoginCall(config)]
  {
    var clock := new MutableClock(start, zone);
    var server := new AuthServer([Ok(first), Ok(second)]);
    var service := new TokenService(config, clock, server);
    var sleeper := new Sleeper();
    LoginAgainOnceBothExpired(config, start, elapsed, [Ok(first), Ok(second)], DefaultMaxAttempts);

    token := service.GetToken(sleeper, DefaultMaxAttempts);
    clock.Add(elapsed * NanosPerSecond);
    renewed := service.GetToken(sleeper, DefaultMaxAttempts);
    requests := server.log;
  }

  /**
   * The token granted for no longer than `elapsed` seconds and the refresh
   * token for longer: the second call exchanges the first refresh token and
   * returns the token the refresh URL answers with.
   */
  method TokenRefreshedAfterExpiry(config: AuthClientConfig, start: int, zone: ZoneId, elapsed: int,
                                   first: AuthResponse, second: AuthResponse)
    returns (token: Result<string, Failure>, refreshed: Result<string, Failure>, ghost requests: seq<Call>)
    requires first.expiresIn <= elapsed < first.refreshTokenExpiresIn
    ensures token == Success(first.token) && refreshed == Success(second.token)
    ensures requests == [LoginCall(config), RefreshCall(Some(first.refreshToken))]
  {
    var clock := new MutableClock(start, zone);
    var server := new AuthServer([Ok(first), Ok(second)]);
    var service := new TokenService(config, clock, server);
    var sleeper := new Sleeper();
    RefreshOnceTokenExpired(config, start, elapsed, [Ok(first), Ok(second)], DefaultMaxAttempts);

    token := service.GetToken(sleeper, DefaultMaxAttempts);
    clock.Add(elapsed * NanosPerSecond);
    refreshed := service.GetToken(sleeper, DefaultMaxAttempts);
    requests := server.log;
  }
}
