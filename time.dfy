/** Instants and durations as chrono's `DateTime<Utc>` and `Duration` hold
    them: whole nanoseconds. */
module Time {

  /** Nanoseconds since the Unix epoch. */
  type Instant = int

  /** A signed span of nanoseconds. */
  type Nanos = int

  const NanosPerMilli: int := 1_000_000

  /** `chrono::TimeDelta::minutes(1)`. */
  const OneMinute: Nanos := 60 * 1_000_000_000

  /** `Duration::num_milliseconds`: whole milliseconds, truncated toward zero
      (Dafny's `/` rounds toward minus infinity, so negative spans are handled
      separately). */
  function Millis(d: Nanos): (ms: int)
    ensures ms * NanosPerMilli <= d < (ms + 1) * NanosPerMilli || d < 0
    ensures (ms - 1) * NanosPerMilli < d <= ms * NanosPerMilli || d >= 0
  {
    if d >= 0 then d / NanosPerMilli else -((-d) / NanosPerMilli)
  }

  /** Truncating to milliseconds keeps the order of spans. */
  lemma MillisMonotonic(d: Nanos, e: Nanos)
    requires d <= e
    ensures Millis(d) <= Millis(e)
  {
  }
}
