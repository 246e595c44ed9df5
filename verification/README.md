# Token acquisition in the auth client, verified

This project models the client side of the food-stack authentication
service: the `TokenService` of the auth-client module, which hands out an
access token to outbound calls, and the settable `MutableClock` its tests
run against.

`TokenService` keeps four mutable fields: the cached token, the cached
refresh token, and their two expiry instants. Each `getToken()` call takes
one of three paths:

- it serves the cached token while that token is valid;
- otherwise, while the refresh token is valid, it exchanges that token at
  the refresh URL;
- otherwise it logs in at the token URL with the configured username and
  password.

Both network paths first drop the token and its expiry. A reply replaces
all four fields, with expiries computed as "now + seconds". The whole call
runs inside a retry envelope:

- a 401 from the token URL is turned into a private exception that is retried;
- a dropped connection is retried;
- every other HTTP error status is fatal;
- the waits between attempts start at 1000 ms and double each time.

The model is in Dafny, one module per concern:

- `wrappers.dfy` (`Wrappers`): `Option` and `Result`.
- `mutable_clock.dfy` (`Clocks`): the `MutableClock` class. Its one
  mutable field is the instant, held as integer nanoseconds since the epoch.
- `retry_policy.dfy` (`RetryPolicy`): the `@Retryable` declaration.
  - Exception classification walks the exception class hierarchy up to the
    closest class named in `retryFor` or `noRetryFor`.
  - The back-off policy holds an interval of 1000 ms. After each wait the
    interval is doubled, with a 30000 ms ceiling on any single wait. Its
    closed form is proved equal to this stepwise policy.
- `token_cache.dfy` (`TokenCache`): the four fields as a value, the two
  validity checks, and the clearing and storing steps.
- `token_flow.dfy` (`TokenFlow`): one call of `getToken` as functions.
  - The remote side is a scripted oracle. Each request consumes one outcome
    from the script: `Ok(reply)`, an error `Status(code)`, or a
    `Transport` failure. An exhausted script answers `Transport`.
  - One attempt is `AttemptOnce`. The retry envelope is
    `RetryFrom`/`Continue`, and a whole call is `GetTokenEpisode`.
- `token_properties.dfy` (`TokenProperties`): inductive properties of the
  retry envelope.
- `token_scenarios.dfy` (`TokenScenarios`): the behaviours the test
  suite exercises, proved for every state and script that sets them up.
- `token_service.dfy` (`TokenServices`): the stateful service.
  - `TokenService` is a class with the four fields. Its validity checks
    are functions that read the service and its clock. Each method is proved
    equal to the episode functions.
  - `AuthServer` stands for the REST client together with the remote side.
    It holds the script and a ghost log of the requests.
  - `Sleeper` stands for the retry framework's sleeper. It takes no time,
    as in the test configuration, and keeps a ghost log of the waits it was
    asked for.
  - `getToken` is a loop around `GetTokenAttempt`.
- `service_scenarios.dfy` (`ServiceScenarios`): two of the tests replayed
  against the class. Each builds a clock, a server and a service, asks for a
  token, moves the clock and asks again.

Three points about the code shape the model:

- On the refresh path only error statuses are fatal, because that request
  has no 401 handler. A dropped connection during a refresh raises a
  `RestClientException` and is retried like any other, so
  `SameRequestEveryAttempt` and `TransportFailuresAreRetried` cover the
  refresh path too.
- The 3-attempt cap is the retry framework's default and does not appear in
  the code, so it is the parameter `maxAttempts`. `DefaultMaxAttempts` = 3 is
  used where the tests rely on it. The 30000 ms ceiling on one wait is also a
  framework default, which three attempts never reach.
- The server fills `expiresIn` and `refreshTokenExpiresIn` with an
  absolute epoch second (auth-service-web AuthV1Controller.java lines
  133-134). The client adds them to "now" as a number of seconds
  (TokenService.java lines 95-96 and 126-127). The model follows the client
  and does not resolve this mismatch.

## Model

| member | source | states |
|---|---|---|
| Clocks.MutableClock.constructor | test-common/src/main/java/io/github/ilyaslabs/foodstack/authservice/test/MutableClock.java:14-20 | the clock stands at the given instant in the given zone |
| Clocks.MutableClock.GetZone | test-common/src/main/java/io/github/ilyaslabs/foodstack/authservice/test/MutableClock.java:22-25 | returns the zone fixed at construction; `zone` is a `const`, so no operation changes it |
| Clocks.MutableClock.WithZone | test-common/src/main/java/io/github/ilyaslabs/foodstack/authservice/test/MutableClock.java:27-30 | a fresh clock at the same instant in the new zone; the receiver is not in any modifies clause and so is unchanged |
| Clocks.MutableClock.Instant | test-common/src/main/java/io/github/ilyaslabs/foodstack/authservice/test/MutableClock.java:32-35 | returns exactly the stored instant |
| Clocks.MutableClock.Add | test-common/src/main/java/io/github/ilyaslabs/foodstack/authservice/test/MutableClock.java:37-39 | the instant becomes old + duration and nothing else changes |
| Clocks.MutableClock.Subtract | test-common/src/main/java/io/github/ilyaslabs/foodstack/authservice/test/MutableClock.java:41-43 | the instant becomes old − duration and nothing else changes |
| Clocks.MutableClock.Set | test-common/src/main/java/io/github/ilyaslabs/foodstack/authservice/test/MutableClock.java:45-47 | the instant becomes the given one whatever it was |
| Clocks.AddThenSubtract | test-common/src/main/java/io/github/ilyaslabs/foodstack/authservice/test/MutableClock.java:37-43 | add(d) then subtract(d) restores the original instant |
| Clocks.SetTwice | test-common/src/main/java/io/github/ilyaslabs/foodstack/authservice/test/MutableClock.java:45-47 | set is idempotent: setting the same instant twice is setting it once |
| RetryPolicy.Extends | auth-client/src/main/java/io/github/ilyaslabs/foodstack/authservice/authclient/TokenService.java:46-47 | definition: a class is the given class or extends it through its chain of superclasses |
| RetryPolicy.CanRetry | auth-client/src/main/java/io/github/ilyaslabs/foodstack/authservice/authclient/TokenService.java:46-47 | definition: walking up from the thrown class, the first class listed in `retryFor` (retry) or `noRetryFor` (do not retry) decides; a class listed in neither is not retried |
| RetryPolicy.RetryClassification | auth-client/src/main/java/io/github/ilyaslabs/foodstack/authservice/authclient/TokenService.java:45-47 | the 401 wrapper, transport errors (ResourceAccessException) and IOException are retried; HttpClientError and HttpServerError are RestClientExceptions but are excluded; a plain RuntimeException is not retried |
| RetryPolicy.BackoffDelay | auth-client/src/main/java/io/github/ilyaslabs/foodstack/authservice/authclient/TokenService.java:48 | definition: the closed form of the n-th wait, 1000·2^(n−1) ms capped at the 30000 ms ceiling |
| RetryPolicy.Interval | auth-client/src/main/java/io/github/ilyaslabs/foodstack/authservice/authclient/TokenService.java:48 | definition: the interval the back-off policy holds before its n-th wait, 1000 ms at first and doubled after each wait taken at or under the ceiling |
| RetryPolicy.SleepFor | auth-client/src/main/java/io/github/ilyaslabs/foodstack/authservice/authclient/TokenService.java:48 | a wait never exceeds the 30000 ms ceiling and equals the held interval below it |
| RetryPolicy.IntervalMatchesBackoff | auth-client/src/main/java/io/github/ilyaslabs/foodstack/authservice/authclient/TokenService.java:48 | the stepwise interval (1000 ms, doubled after each wait) is bounded by 1000·2^(n−1), equal to it below the ceiling, and the n-th wait is min(1000·2^(n−1), 30000) |
| RetryPolicy.BackoffMonotone | auth-client/src/main/java/io/github/ilyaslabs/foodstack/authservice/authclient/TokenService.java:48 | waits never shrink and stay between 1000 ms and the ceiling |
| RetryPolicy.DefaultDelays | auth-client/src/main/java/io/github/ilyaslabs/foodstack/authservice/authclient/TokenService.java:48 | the waits are 1000, 2000, … 16000 ms, then the ceiling |
| TokenCache.IsTokenValid | auth-client/src/main/java/io/github/ilyaslabs/foodstack/authservice/authclient/TokenService.java:139-141 | definition: the token expiry is set and `now` is strictly before it, so the token is invalid at its expiry instant |
| TokenCache.IsRefreshTokenValid | auth-client/src/main/java/io/github/ilyaslabs/foodstack/authservice/authclient/TokenService.java:148-150 | definition: the refresh-token expiry is set and `now` is strictly before it |
| TokenCache.Consistent | auth-client/src/main/java/io/github/ilyaslabs/foodstack/authservice/authclient/TokenService.java:33-36 | definition: the field invariant the service keeps: a token and its expiry are set together, a refresh token and its expiry are set together, and a token is never held without a refresh token |
| TokenCache.Clear | auth-client/src/main/java/io/github/ilyaslabs/foodstack/authservice/authclient/TokenService.java:70-72 | the token and its expiry are dropped, the refresh token and its expiry are kept, consistency is kept, the token is invalid at every instant and the refresh token's validity is unchanged |
| TokenCache.Store | auth-client/src/main/java/io/github/ilyaslabs/foodstack/authservice/authclient/TokenService.java:93-96 | all four fields come from the one reply; the token is valid exactly before now + expiresIn seconds and invalid at and after it; likewise the refresh token |
| TokenFlow.IsRetryable | auth-client/src/main/java/io/github/ilyaslabs/foodstack/authservice/authclient/TokenService.java:45-47 | definition: the envelope retries the 401 wrapper and the transport error; `RetryableIsClassified` ties this to the annotation's lists |
| TokenFlow.RetryableIsClassified | auth-client/src/main/java/io/github/ilyaslabs/foodstack/authservice/authclient/TokenService.java:45-47 | a failure is retried by the envelope iff the annotation's lists classify its exception class as retryable |
| TokenFlow.StatusFailure | auth-client/src/main/java/io/github/ilyaslabs/foodstack/authservice/authclient/TokenService.java:79-91 | an error status is retried iff it is a 401 from the token URL; every other status becomes a client (4xx) or server (5xx) error carrying that status |
| TokenFlow.FailureFor | auth-client/src/main/java/io/github/ilyaslabs/foodstack/authservice/authclient/TokenService.java:84-91 | definition: the exception a request ends in when it meets an error status (as `StatusFailure` gives it) or a transport failure |
| TokenFlow.Exchange | auth-client/src/main/java/io/github/ilyaslabs/foodstack/authservice/authclient/TokenService.java:74-100 | one request; a reply is stored and its token returned; a status or transport failure leaves the cleared cache and throws the exception for that outcome: the 401 wrapper, an HTTP error or the transport error |
| TokenFlow.AttemptOnce | auth-client/src/main/java/io/github/ilyaslabs/foodstack/authservice/authclient/TokenService.java:50-62 | no request is made exactly when the cached token is valid, and then the cache and script are untouched and the cached token is returned; a failed attempt made one request and throws the exception for the outcome it met; the cache stays consistent |
| TokenFlow.ChoosePath | auth-client/src/main/java/io/github/ilyaslabs/foodstack/authservice/authclient/TokenService.java:52-61 | definition: serve the cache while the token is valid, else refresh while the refresh token is valid, else log in |
| TokenFlow.Continue | auth-client/src/main/java/io/github/ilyaslabs/foodstack/authservice/authclient/TokenService.java:45-49 | definition: after an attempt, return or rethrow on success, on a failure that is not retried or on the last attempt; otherwise wait the back-off delay and run the whole decision again |
| TokenFlow.RetryFrom | auth-client/src/main/java/io/github/ilyaslabs/foodstack/authservice/authclient/TokenService.java:45-62 | definition: attempt number `attempt` of the body, then `Continue`, with the requests and waits of both |
| TokenFlow.GetTokenEpisode | auth-client/src/main/java/io/github/ilyaslabs/foodstack/authservice/authclient/TokenService.java:45-62 | definition: one call of getToken through its retry envelope, from the first attempt |
| TokenProperties.RetryUnfolds | auth-client/src/main/java/io/github/ilyaslabs/foodstack/authservice/authclient/TokenService.java:45-62 | a retryable failure with attempts left is one request after clearing the token, a back-off wait, and the episode from the next attempt |
| TokenProperties.EpisodeShape | auth-client/src/main/java/io/github/ilyaslabs/foodstack/authservice/authclient/TokenService.java:45-49 | at most one request per remaining attempt, one script outcome consumed per request, one wait between consecutive requests following the back-off schedule, and a consistent cache |
| TokenProperties.FailureLeavesTokenCleared | auth-client/src/main/java/io/github/ilyaslabs/foodstack/authservice/authclient/TokenService.java:70-72 | a call that throws leaves the token and its expiry cleared and the refresh token as it was, so the token is invalid |
| TokenProperties.FailureIsLastOutcome | auth-client/src/main/java/io/github/ilyaslabs/foodstack/authservice/authclient/TokenService.java:45-49 | whatever failure reaches the caller, retried or not, is the exception of the last attempt: the one for the endpoint of the last request and the outcome it met |
| TokenProperties.RetryableFailureExhaustsAttempts | auth-client/src/main/java/io/github/ilyaslabs/foodstack/authservice/authclient/TokenService.java:45-49 | a retryable failure reaches the caller only after every attempt has been used |
| TokenProperties.FatalFailureIsLastStatus | auth-client/src/main/java/io/github/ilyaslabs/foodstack/authservice/authclient/TokenService.java:47 | a non-retried failure is the client or server error for the status answered to the last request |
| TokenProperties.SuccessStoresLastReply | auth-client/src/main/java/io/github/ilyaslabs/foodstack/authservice/authclient/TokenService.java:93-100 | a token is returned either from the cache with no request, or as the token of the last reply, with all four fields stored from that reply |
| TokenProperties.SameRequestEveryAttempt | auth-client/src/main/java/io/github/ilyaslabs/foodstack/authservice/authclient/TokenService.java:56-61 | once the token is invalid every attempt sends the same request, because each retry re-runs the whole decision |
| TokenScenarios.CachedTokenServed | auth-client/src/main/java/io/github/ilyaslabs/foodstack/authservice/authclient/TokenService.java:52-54 | no request is made iff the token is valid, and then the cached token is returned and nothing changes |
| TokenScenarios.RepeatedCallServedFromCache | auth-client/src/main/java/io/github/ilyaslabs/foodstack/authservice/authclient/TokenService.java:52-54 | a second call at the same instant after a success returns the same token from the cache with no request |
| TokenScenarios.RefreshTokenUsedWhileValid | auth-client/src/main/java/io/github/ilyaslabs/foodstack/authservice/authclient/TokenService.java:57-58 | token invalid and refresh token valid: every request carries the cached refresh token to the refresh URL and the token URL is never asked |
| TokenScenarios.CredentialsUsedWhenBothExpired | auth-client/src/main/java/io/github/ilyaslabs/foodstack/authservice/authclient/TokenService.java:61 | both invalid: every request carries username and password to the token URL and the refresh URL is never asked |
| TokenScenarios.UnauthorizedIsRetried | auth-client/src/test/java/io/github/ilyaslabs/foodstack/authservice/authclient/TokenServiceTest.java:57-83 | a 401 then a reply: two token-URL requests, one 1000 ms wait, and the reply's token |
| TokenScenarios.UnauthorizedExhaustsAttempts | auth-client/src/main/java/io/github/ilyaslabs/foodstack/authservice/authclient/TokenService.java:84-90 | logging in and answered 401 on every attempt: every attempt is used, the 401 wrapper reaches the caller and the token is left cleared |
| TokenScenarios.OtherStatusIsFatal | auth-client/src/test/java/io/github/ilyaslabs/foodstack/authservice/authclient/TokenServiceTest.java:170-190 | any other status from the token URL: one request, no wait, and a client or server error |
| TokenScenarios.RefreshStatusIsFatal | auth-client/src/main/java/io/github/ilyaslabs/foodstack/authservice/authclient/TokenService.java:117-122 | any status from the refresh URL, 401 included: one request, no wait, and a fatal client or server error |
| TokenScenarios.TransportFailuresAreRetried | auth-client/src/test/java/io/github/ilyaslabs/foodstack/authservice/authclient/TokenServiceTest.java:198-225 | two dropped connections then a reply: three identical requests, waits of 1000 ms and 2000 ms, and the reply's token |
| TokenScenarios.TransportFailuresExhaustAttempts | auth-client/src/main/java/io/github/ilyaslabs/foodstack/authservice/authclient/TokenService.java:45-49 | only dropped connections: every attempt is used and the transport failure reaches the caller with the token cleared |
| TokenScenarios.ResultOfTransportOnly | auth-client/src/main/java/io/github/ilyaslabs/foodstack/authservice/authclient/TokenService.java:45-49 | when every outcome is a dropped connection, every failure that reaches the caller is the transport failure |
| TokenScenarios.LoginAgainOnceBothExpired | auth-client/src/test/java/io/github/ilyaslabs/foodstack/authservice/authclient/TokenServiceTest.java:87-116 | a login, then the clock moved to or past both expiries: a second login returning the new token |
| TokenScenarios.RefreshOnceTokenExpired | auth-client/src/test/java/io/github/ilyaslabs/foodstack/authservice/authclient/TokenServiceTest.java:118-167 | a login, then the clock moved past the token's expiry but not the refresh token's: one refresh request with the first refresh token, returning the new token |
| TokenServices.AuthServer.Post | auth-client/src/main/java/io/github/ilyaslabs/foodstack/authservice/authclient/TokenService.java:79-91 | one request consumes the next outcome of the script and is appended to the request log |
| TokenServices.Sleeper.Sleep | test-common/src/main/java/io/github/ilyaslabs/foodstack/authservice/test/FixedClockConfiguration.java:22-26 | a wait takes no time and is appended to the log of waits |
| TokenServices.TokenService.constructor | auth-client/src/main/java/io/github/ilyaslabs/foodstack/authservice/authclient/TokenService.java:26-36 | a new service holds no token and no refresh token |
| TokenServices.TokenService.IsTokenValid | auth-client/src/main/java/io/github/ilyaslabs/foodstack/authservice/authclient/TokenService.java:139-141 | true iff the token expiry is set and the clock is strictly before it |
| TokenServices.TokenService.IsRefreshTokenValid | auth-client/src/main/java/io/github/ilyaslabs/foodstack/authservice/authclient/TokenService.java:148-150 | true iff the refresh-token expiry is set and the clock is strictly before it |
| TokenServices.TokenService.StoreResponse | auth-client/src/main/java/io/github/ilyaslabs/foodstack/authservice/authclient/TokenService.java:93-96 | the four fields become those of `Store` at the clock's instant |
| TokenServices.TokenService.FetchToken | auth-client/src/main/java/io/github/ilyaslabs/foodstack/authservice/authclient/TokenService.java:69-101 | clears the token, posts the credentials to the token URL and ends as `Exchange` does: fields, result, script and request log |
| TokenServices.TokenService.FetchTokenUsingRefreshToken | auth-client/src/main/java/io/github/ilyaslabs/foodstack/authservice/authclient/TokenService.java:108-132 | clears the token, posts the cached refresh token to the refresh URL and ends as `Exchange` does |
| TokenServices.TokenService.GetTokenAttempt | auth-client/src/main/java/io/github/ilyaslabs/foodstack/authservice/authclient/TokenService.java:50-62 | one run of the body ends as `AttemptOnce` does, keeping the fields consistent |
| TokenServices.TokenService.GetToken | auth-client/src/main/java/io/github/ilyaslabs/foodstack/authservice/authclient/TokenService.java:45-62 | the retry loop ends as `GetTokenEpisode` does: fields, result, requests made, outcomes consumed and waits taken |
| ServiceScenarios.TokenRenewedAfterExpiry | auth-client/src/test/java/io/github/ilyaslabs/foodstack/authservice/authclient/TokenServiceTest.java:87-116 | on the class: the first call returns the first token, the clock is moved past both expiries, and the second call logs in again and returns the second token |
| ServiceScenarios.TokenRefreshedAfterExpiry | auth-client/src/test/java/io/github/ilyaslabs/foodstack/authservice/authclient/TokenServiceTest.java:118-167 | on the class: the second call, past the token's expiry only, sends the first refresh token to the refresh URL and returns the second token |

## Left out

- The `synchronized` modifier on `getToken`: there is no concurrency in the model, so it has one sequential caller.
- HTTP and JSON: `RestClient`, headers, URLs as strings and (de)serialisation are left out. The endpoints are the two values of `Endpoint`, and each exchange is an outcome taken from a script.
- Replies with null fields, malformed bodies and statuses outside 400-599 are not modelled. Every reply carries both tokens and both expiries.
- Logging, and real sleeping: the sleeper records waits and takes no time, so the clock stands still during back-off.
- The server side (`AuthV1Controller`, JWT generation, the user repository) is not part of this model. Its epoch-second `expiresIn` is noted above and not resolved.
- Instant overflow: instants and durations are unbounded integers, while `java.time.Instant` throws outside its range.
- Time zones: a `ZoneId` is an opaque value. Instants are nanoseconds since the epoch, with no zone arithmetic.
- Other retry framework behaviour: stateful retry, recovery methods, listeners, jitter and a custom `maxAttempts` or `maxDelay` are not modelled. The attempt count is a parameter of at least 1, and the ceiling is the framework's default.
- The exception class hierarchy covers only the classes that can leave `getToken` and their superclasses.
