/** Time as the Hub keeps it: an integer count of nanoseconds, so that durations
    add and compare exactly as Go's `time.Duration` does. */
module Clock {
  const SECOND: int := 1_000_000_000
  const MINUTE: int := 60 * SECOND
  const HOUR: int := 60 * MINUTE
}
