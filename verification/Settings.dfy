/** The optional parameters of a breaker, as they are asked for. Durations are
    nanoseconds. */
module Settings {
  datatype Setting =
    | WithBreaker(consecutiveFailures: int, openFor: int, halfOpenProbes: int)
    | WithStatusCodeFailure(min: int)
    | WithRetryPolicy
    | WithExponentialBackoff(base: int, max: int, jitter: bool)
    | WithBurst(n: int)
    | WithRetryAfter(maxWait: int)
    | WithDefaultTimeout(d: int)
    | Nothing // a nil option
}
