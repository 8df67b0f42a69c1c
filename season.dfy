/** A rating period (src/types/entities/season.rs). The current time, read
    with `Utc::now()` in the source, is a parameter. */
module SeasonEntity {
  import opened Optional
  import opened Numbers
  import opened Time

  datatype Season = Season(id: U64, start: Instant, end: Instant, processed: bool)

  /** `is_active`: the period has started and not yet ended. */
  predicate IsActive(season: Season, now: Instant)
    ensures IsActive(season, now) ==> season.start < season.end
  {
    now >= season.start && now < season.end
  }

  /** `Season::new`: a fresh, unprocessed period that has no id yet. */
  function New(start: Instant, end: Instant): (s: Season)
    ensures s.id == 0 && !s.processed
    ensures s.start == start && s.end == end
  {
    Season(0, start, end, false)
  }

  /** `new_starting_now_until`. */
  function NewStartingNowUntil(now: Instant, end: Instant): (s: Season)
    ensures s.id == 0 && !s.processed
    ensures s.start == now && s.end == end
    ensures IsActive(s, now) <==> now < end
  {
    Season(0, now, end, false)
  }

  /** `from_duration`. */
  function FromDuration(now: Instant, duration: Nanos): (s: Season)
    ensures s.id == 0 && !s.processed && s.start == now
    ensures Duration(s) == duration
    ensures IsActive(s, now) <==> duration > 0
  {
    Season(0, now, now + duration, false)
  }

  /** `duration`: end minus start. */
  function Duration(season: Season): (d: Nanos)
    ensures season.start + d == season.end
  {
    season.end - season.start
  }

  /** `elapsed_since_start`. */
  function ElapsedSinceStart(season: Season, now: Instant): (e: Nanos)
    ensures season.start + e == now
  {
    now - season.start
  }

  /** `elapsed_since_end`. */
  function ElapsedSinceEnd(season: Season, now: Instant): (e: Nanos)
    ensures season.end + e == now
  {
    now - season.end
  }

  /** A period is active exactly when the time since its start is not
      negative and the time since its end is negative. */
  lemma ActiveByElapsed(season: Season, now: Instant)
    ensures IsActive(season, now) <==> ElapsedSinceStart(season, now) >= 0 && ElapsedSinceEnd(season, now) < 0
    ensures ElapsedSinceStart(season, now) - ElapsedSinceEnd(season, now) == Duration(season)
  {
  }

  /** `completion`: elapsed and total milliseconds divided as floats. `None`
      stands for the non-finite float (an infinity, or NaN at the start) the
      division gives when the period is shorter than a millisecond. */
  function Completion(season: Season, now: Instant): (c: Option<real>)
    ensures c.None? <==> Millis(Duration(season)) == 0
    ensures c.Some? ==> c.value * Millis(Duration(season)) as real == Millis(ElapsedSinceStart(season, now)) as real
  {
    var total := Millis(Duration(season));
    if total == 0 then None
    else Some(Millis(ElapsedSinceStart(season, now)) as real / total as real)
  }

  /** Completion is 0 at the start and 1 at the end. */
  lemma CompletionEndpoints(season: Season)
    requires Millis(Duration(season)) != 0
    ensures Completion(season, season.start) == Some(0.0)
    ensures Completion(season, season.end) == Some(1.0)
  {
    var total := Millis(Duration(season));
    assert ElapsedSinceStart(season, season.end) == Duration(season);
    assert total as real / total as real == 1.0;
  }

  /** While a period (of at least a millisecond) is active its completion
      lies between 0 and 1, and it never decreases as time goes on. */
  lemma CompletionWhileActive(season: Season, now: Instant, later: Instant)
    requires Millis(Duration(season)) > 0
    requires IsActive(season, now) && now <= later
    ensures 0.0 <= Completion(season, now).value <= 1.0
    ensures Completion(season, now).value <= Completion(season, later).value
  {
    var total := Millis(Duration(season));
    MillisMonotonic(ElapsedSinceStart(season, now), Duration(season));
    MillisMonotonic(0, ElapsedSinceStart(season, now));
    MillisMonotonic(ElapsedSinceStart(season, now), ElapsedSinceStart(season, later));
    var a, b := Millis(ElapsedSinceStart(season, now)), Millis(ElapsedSinceStart(season, later));
    assert a as real <= b as real;
    DivideMonotonic(a as real, b as real, total as real);
    DivideMonotonic(a as real, total as real, total as real);
    DivideMonotonic(0.0, a as real, total as real);
  }

  lemma DivideMonotonic(x: real, y: real, d: real)
    requires x <= y && d > 0.0
    ensures x / d <= y / d
  {
  }

  /** A period from `from_duration` (of at least a millisecond) starts at
      completion 0 and reaches 1 when the duration has passed. */
  lemma FromDurationCompletion(now: Instant, duration: Nanos)
    requires Millis(duration) != 0
    ensures Completion(FromDuration(now, duration), now) == Some(0.0)
    ensures Completion(FromDuration(now, duration), now + duration) == Some(1.0)
  {
    CompletionEndpoints(FromDuration(now, duration));
  }

  /** Shorter than a millisecond in either direction, the division has no
      finite value. */
  lemma CompletionUndefined(season: Season, now: Instant)
    ensures Completion(season, now).None? <==> -NanosPerMilli < Duration(season) < NanosPerMilli
  {
  }
}
