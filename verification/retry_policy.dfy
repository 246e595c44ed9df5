/**
 * The retry envelope declared on TokenService.getToken: which exceptions
 * start another attempt, and how long the caller waits before it.
 */
module RetryPolicy {

  /** The exception classes that can leave getToken, and the classes they extend. */
  datatype ExceptionClass =
    | UnauthorizedRetryException
    | HttpClientErrorException
    | HttpServerErrorException
    | HttpStatusCodeException
    | RestClientResponseException
    | ResourceAccessException
    | RestClientException
    | NestedRuntimeException
    | RuntimeException
    | IOException
    | Exception
    | Throwable

  /** The class an exception class directly extends (Throwable is the root here). */
  function Superclass(k: ExceptionClass): ExceptionClass
  {
    match k
    case UnauthorizedRetryException => RuntimeException
    case HttpClientErrorException | HttpServerErrorException => HttpStatusCodeException
    case HttpStatusCodeException => RestClientResponseException
    case RestClientResponseException | ResourceAccessException => RestClientException
    case RestClientException => NestedRuntimeException
    case NestedRuntimeException => RuntimeException
    case RuntimeException | IOException => Exception
    case Exception | Throwable => Throwable
  }

  /** How many classes lie between `k` and the root. */
  function Depth(k: ExceptionClass): nat
  {
    match k
    case Throwable => 0
    case Exception => 1
    case RuntimeException | IOException => 2
    case NestedRuntimeException | UnauthorizedRetryException => 3
    case RestClientException => 4
    case RestClientResponseException | ResourceAccessException => 5
    case HttpStatusCodeException => 6
    case HttpClientErrorException | HttpServerErrorException => 7
  }

  /** Whether `k` is `ancestor` or extends it, directly or through its superclasses. */
  predicate Extends(k: ExceptionClass, ancestor: ExceptionClass)
    decreases Depth(k)
  {
    k == ancestor || (k != Throwable && Extends(Superclass(k), ancestor))
  }

  /** `retryFor` of the annotation. */
  const RetryFor: set<ExceptionClass> := {UnauthorizedRetryException, RestClientException, IOException}

  /** `noRetryFor` of the annotation. */
  const NoRetryFor: set<ExceptionClass> := {HttpClientErrorException, HttpServerErrorException}

  /**
   * Whether an exception of class `k` leads to another attempt (while
   * attempts remain): the closest class, walking up from `k`, that appears
   * in either list decides; a class that meets neither list is not retried.
   */
  predicate CanRetry(k: ExceptionClass)
    decreases Depth(k)
  {
    if k in RetryFor then true
    else if k in NoRetryFor then false
    else if k == Throwable then false
    else CanRetry(Superclass(k))
  }

  /**
   * Exactly the 401 wrapper and transport failures are retried; an HTTP
   * client or server error is not, although it is also a RestClientException.
   */
  lemma RetryClassification()
    ensures CanRetry(UnauthorizedRetryException)
    ensures CanRetry(ResourceAccessException)
    ensures CanRetry(IOException)
    ensures Extends(HttpClientErrorException, RestClientException) && !CanRetry(HttpClientErrorException)
    ensures Extends(HttpServerErrorException, RestClientException) && !CanRetry(HttpServerErrorException)
    ensures !CanRetry(RuntimeException)
  {
  }

  /** `@Backoff(delay = 1000)`: the first wait, in milliseconds. */
  const InitialIntervalMs: nat := 1000

  /** `@Backoff(multiplier = 2.0)`. */
  const Multiplier: nat := 2

  /** The retry framework's default ceiling on one wait, in milliseconds. */
  const MaxIntervalMs: nat := 30000

  /** The retry framework's default number of attempts, first one included. */
  const DefaultMaxAttempts: nat := 3

  function Pow(b: nat, e: nat): nat
  {
    if e == 0 then 1 else b * Pow(b, e - 1)
  }

  /** The wait after the `n`-th failed attempt: 1000 ms doubling each time, never above the ceiling. */
  function BackoffDelay(n: nat): (ms: nat)
    requires n >= 1
  {
    var raw := InitialIntervalMs * Pow(Multiplier, n - 1);
    if raw <= MaxIntervalMs then raw else MaxIntervalMs
  }

  /**
   * The interval the back-off policy holds before its `n`-th wait: it starts
   * at the initial delay and is multiplied after each wait that did not hit
   * the ceiling.
   */
  function Interval(n: nat): nat
    requires n >= 1
  {
    if n == 1 then InitialIntervalMs
    else
      var prev := Interval(n - 1);
      if prev > MaxIntervalMs then prev else prev * Multiplier
  }

  /** The wait the policy actually takes for a held interval. */
  function SleepFor(interval: nat): (ms: nat)
    ensures ms <= MaxIntervalMs
    ensures interval <= MaxIntervalMs ==> ms == interval
  {
    if interval > MaxIntervalMs then MaxIntervalMs else interval
  }

  /** The stepwise policy waits exactly the closed-form delays. */
  lemma {:induction false} IntervalMatchesBackoff(n: nat)
    requires n >= 1
    ensures Interval(n) <= InitialIntervalMs * Pow(Multiplier, n - 1)
    ensures Interval(n) <= MaxIntervalMs ==> Interval(n) == InitialIntervalMs * Pow(Multiplier, n - 1)
    ensures SleepFor(Interval(n)) == BackoffDelay(n)
  {
    if n > 1 {
      IntervalMatchesBackoff(n - 1);
      assert Pow(Multiplier, n - 1) == Multiplier * Pow(Multiplier, n - 2);
    }
  }

  /** Waits never shrink from one retry to the next, and stay between 1000 ms and the ceiling. */
  lemma {:induction false} BackoffMonotone(n: nat)
    requires n >= 1
    ensures InitialIntervalMs <= BackoffDelay(n) <= BackoffDelay(n + 1) <= MaxIntervalMs
  {
    if n > 1 {
      BackoffMonotone(n - 1);
    }
  }

  /** With the default three attempts the caller waits 1000 ms and then 2000 ms. */
  lemma DefaultDelays()
    ensures BackoffDelay(1) == 1000 && BackoffDelay(2) == 2000
    ensures BackoffDelay(5) == 16000 && BackoffDelay(6) == MaxIntervalMs
  {
  }
}
