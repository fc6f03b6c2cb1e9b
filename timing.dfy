/**
 * `sleep_until`: how long to wait for a ship's arrival. Timestamps are UTC
 * instants counted in microseconds (the resolution of Python's datetime);
 * the function uses only the `seconds` component of the `timedelta`, which
 * discards whole days and fractions of a second.
 */
module Timing {
  import opened Wrappers

  const MicrosPerSecond: int := 1_000_000
  const SecondsPerDay: int := 86400
  const MicrosPerDay: int := SecondsPerDay * MicrosPerSecond

  /**
   * `timedelta.seconds` of a span of `delta` microseconds: Python normalises
   * a timedelta to days, seconds in [0, 86400) and microseconds in
   * [0, 10^6), rounding towards minus infinity.
   */
  function TimedeltaSeconds(delta: int): (s: nat)
    ensures s < SecondsPerDay
    ensures exists days: int :: delta == days * MicrosPerDay + s * MicrosPerSecond + delta % MicrosPerSecond
  {
    var whole := delta / MicrosPerSecond;
    var s := whole % SecondsPerDay;
    assert delta == whole * MicrosPerSecond + delta % MicrosPerSecond;
    assert whole == (whole / SecondsPerDay) * SecondsPerDay + s;
    var days := whole / SecondsPerDay;
    assert delta == days * MicrosPerDay + s * MicrosPerSecond + delta % MicrosPerSecond by {
      assert whole * MicrosPerSecond == (days * SecondsPerDay + s) * MicrosPerSecond;
    }
    s
  }

  /**
   * `sleep_until(arrival, buffer)` at the instant `now`: `None` when the
   * arrival is not in the future, otherwise the seconds component of the
   * remaining time plus `buffer`.
   */
  function SleepUntil(arrival: int, now: int, buffer: int): (r: Option<int>)
    ensures r.None? <==> arrival <= now
    ensures r.Some? ==> buffer <= r.value < SecondsPerDay + buffer
  {
    if arrival <= now then None
    else Some(TimedeltaSeconds(arrival - now) + buffer)
  }

  /** For spans under a day the seconds component is the whole seconds of the span. */
  lemma SecondsOfShortSpan(delta: int)
    requires 0 <= delta < MicrosPerDay
    ensures TimedeltaSeconds(delta) == delta / MicrosPerSecond
  {
    assert delta / MicrosPerSecond < SecondsPerDay;
  }

  /** An arrival less than a day ahead: the wait is its whole seconds plus the buffer. */
  lemma SleepUntilWithinDay(arrival: int, now: int, buffer: int)
    requires now < arrival < now + MicrosPerDay
    ensures SleepUntil(arrival, now, buffer) == Some((arrival - now) / MicrosPerSecond + buffer)
  {
    SecondsOfShortSpan(arrival - now);
  }

  /** For arrivals less than a day ahead, a later arrival never gives a shorter wait. */
  lemma SleepUntilMonotone(a1: int, a2: int, now: int, buffer: int)
    requires now < a1 <= a2 < now + MicrosPerDay
    ensures SleepUntil(a1, now, buffer).value <= SleepUntil(a2, now, buffer).value
  {
    SleepUntilWithinDay(a1, now, buffer);
    SleepUntilWithinDay(a2, now, buffer);
    DivMonotone(a1 - now, a2 - now);
  }

  lemma DivMonotone(x: int, y: int)
    requires 0 <= x <= y
    ensures x / MicrosPerSecond <= y / MicrosPerSecond
  {
  }

  /** Whole days of remaining time are discarded: an arrival a day later waits as long. */
  lemma SleepUntilDropsDays(arrival: int, now: int, buffer: int)
    requires arrival > now
    ensures SleepUntil(arrival + MicrosPerDay, now, buffer) == SleepUntil(arrival, now, buffer)
  {
    var d := arrival - now;
    assert (d + MicrosPerDay) / MicrosPerSecond == d / MicrosPerSecond + SecondsPerDay;
    assert (d / MicrosPerSecond + SecondsPerDay) % SecondsPerDay == (d / MicrosPerSecond) % SecondsPerDay;
  }
}
