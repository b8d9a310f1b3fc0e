/** Time. The clock and all durations are in nanoseconds. A timestamp kept by the
    API server is a `date-time` string (RFC 3339, section 5.6) in whole seconds. */
module Clock {
  const SECOND: int := 1_000_000_000

  /** What is left of a clock reading once it has been stored. */
  function Trunc(t: int): (r: int)
    ensures r <= t < r + SECOND
    ensures r % SECOND == 0
  {
    t - t % SECOND
  }

  /** Storing a timestamp never moves it before a whole second it had reached. */
  lemma TruncKeepsWhole(t: int, s: int)
    requires s % SECOND == 0 && s <= t
    ensures s <= Trunc(t)
  {
  }
}
