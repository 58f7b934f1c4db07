/**
 * Points in time and spans of time, as the fixed-window strategy uses them.
 *
 * Both are counted in nanoseconds. A span is a `Duration`, bounded by
 * `Duration::MAX` (u64::MAX seconds plus 999 999 999 nanoseconds). A point is
 * a `SystemTime`; on Unix targets its range is a signed 64-bit count of
 * seconds plus nanoseconds, which this model shifts to start at 0, so that
 * there are exactly as many instants as there are durations.
 */
module Time {
  import opened Wrappers

  const NANOS_PER_SEC: nat := 1_000_000_000

  /** Duration::MAX, in nanoseconds. */
  const DURATION_MAX: nat := 0x1_0000_0000_0000_0000 * NANOS_PER_SEC - 1

  /** The latest representable SystemTime, measured from the earliest one. */
  const TIME_MAX: nat := DURATION_MAX

  type Duration = d: nat | d <= DURATION_MAX
  type Time = t: nat | t <= TIME_MAX

  /** A span of whole seconds (Duration::from_secs). */
  function FromSecs(secs: nat): nat {
    secs * NANOS_PER_SEC
  }

  /** `later.duration_since(earlier)`: fails when `earlier` is after `later`. */
  function DurationSince(later: Time, earlier: Time): (r: Option<Duration>)
    ensures r.Some? <==> earlier <= later
    ensures r.Some? ==> earlier + r.value == later
  {
    if earlier <= later then Some(later - earlier) else None
  }

  /** `t.checked_add(d)`: fails when the sum is past the last representable instant. */
  function CheckedAdd(t: Time, d: Duration): (r: Option<Time>)
    ensures r.Some? <==> t + d <= TIME_MAX
    ensures r.Some? ==> r.value == t + d
  {
    if t + d <= TIME_MAX then Some(t + d) else None
  }
}
