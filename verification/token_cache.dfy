/**
 * The four cached fields of the token service and the two validity checks
 * made against them, as values.
 */
module TokenCache {
  import opened Wrappers

  const NanosPerSecond: int := 1_000_000_000

  /** `Instant.plusSeconds`: an instant moved by a whole number of seconds. */
  function PlusSeconds(instant: int, seconds: int): int
  {
    instant + seconds * NanosPerSecond
  }

  /**
   * The body of a successful reply from either endpoint. The expiry fields
   * are read as seconds from now.
   */
  datatype AuthResponse = AuthResponse(
    token: string,
    refreshToken: string,
    expiresIn: int,
    refreshTokenExpiresIn: int)

  /** cachedToken, cachedRefreshToken, tokenExpiry and refreshTokenExpiry; None stands for null. */
  datatype Cache = Cache(
    cachedToken: Option<string>,
    cachedRefreshToken: Option<string>,
    tokenExpiry: Option<int>,
    refreshTokenExpiry: Option<int>)

  /** The fields of a newly built service: all null. */
  const Empty: Cache := Cache(None, None, None, None)

  /** The token is valid when its expiry is set and `now` is strictly before it. */
  predicate IsTokenValid(c: Cache, now: int)
  {
    c.tokenExpiry.Some? && now < c.tokenExpiry.value
  }

  /** The refresh token is valid when its expiry is set and `now` is strictly before it. */
  predicate IsRefreshTokenValid(c: Cache, now: int)
  {
    c.refreshTokenExpiry.Some? && now < c.refreshTokenExpiry.value
  }

  /**
   * What the service maintains between calls: a token and its expiry are
   * set together, a refresh token and its expiry are set together, and a
   * token is never held without a refresh token from the same reply.
   */
  predicate Consistent(c: Cache)
  {
    && c.cachedToken.Some? == c.tokenExpiry.Some?
    && c.cachedRefreshToken.Some? == c.refreshTokenExpiry.Some?
    && (c.tokenExpiry.Some? ==> c.refreshTokenExpiry.Some?)
  }

  /**
   * The cache as it stands while a request is in flight: the token and its
   * expiry dropped, so the token is invalid at every instant, and the
   * refresh token untouched.
   */
  function Clear(c: Cache): (r: Cache)
    ensures r.cachedToken == None && r.tokenExpiry == None
    ensures r.cachedRefreshToken == c.cachedRefreshToken
    ensures r.refreshTokenExpiry == c.refreshTokenExpiry
    ensures Consistent(c) ==> Consistent(r)
    ensures forall now :: !IsTokenValid(r, now)
    ensures forall now :: IsRefreshTokenValid(r, now) == IsRefreshTokenValid(c, now)
  {
    c.(cachedToken := None, tokenExpiry := None)
  }

  /**
   * The cache after a successful reply received at `now`: all four fields
   * from that one reply. The token is then valid up to, and not at,
   * `expiresIn` seconds after `now`; likewise the refresh token.
   */
  function Store(response: AuthResponse, now: int): (r: Cache)
    ensures r.cachedToken == Some(response.token)
    ensures r.cachedRefreshToken == Some(response.refreshToken)
    ensures Consistent(r)
    ensures forall later ::
      IsTokenValid(r, later) <==> later < now + response.expiresIn * NanosPerSecond
    ensures forall later ::
      IsRefreshTokenValid(r, later) <==> later < now + response.refreshTokenExpiresIn * NanosPerSecond
  {
    Cache(
      Some(response.token),
      Some(response.refreshToken),
      Some(PlusSeconds(now, response.expiresIn)),
      Some(PlusSeconds(now, response.refreshTokenExpiresIn)))
  }
}
