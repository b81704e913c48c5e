/** Go's time.Time as an integer: nanoseconds since the Unix epoch. The wall clock
    itself is not modelled; every operation that reads it takes the instant as a
    parameter. */
module Instants {

  type Instant = int

  /** time.Second, in nanoseconds. */
  const Second: int := 1_000_000_000

  /** time.Time{}: 0001-01-01 00:00:00 UTC. */
  const ZeroTime: Instant := -62_135_596_800 * Second

  /** t.After(u) */
  predicate After(t: Instant, u: Instant)
  {
    t > u
  }

  /** t.Add(time.Duration(seconds) * time.Second), without int64 overflow. */
  function AddSeconds(t: Instant, seconds: int): Instant
  {
    t + seconds * Second
  }

  /** t.Unix(): whole seconds since the epoch, rounded down (also before 1970). */
  function Unix(t: Instant): (s: int)
    ensures s * Second <= t < (s + 1) * Second
  {
    t / Second
  }

  /** Adding whole seconds moves Unix() by exactly that many seconds. */
  lemma UnixAddSeconds(t: Instant, seconds: int)
    ensures Unix(AddSeconds(t, seconds)) == Unix(t) + seconds
  {
    var s := Unix(t);
    var u := AddSeconds(t, seconds);
    assert (s + seconds) * Second <= u < (s + seconds + 1) * Second;
    UnixUnique(u, s + seconds);
  }

  /** The second that Unix() reports is the only one whose interval holds t. */
  lemma UnixUnique(t: Instant, s: int)
    requires s * Second <= t < (s + 1) * Second
    ensures Unix(t) == s
  {
  }
}
