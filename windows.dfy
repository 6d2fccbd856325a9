/**
 * The two time-window tests of the scheduler, `_should_start_instances`
 * and `_should_stop_instances`, on the local clock reading taken as whole
 * seconds since local midnight.
 */
module Windows {
  import opened TimeParse

  /** A wall-clock reading in the configured zone, in whole seconds since local midnight. */
  type SecondOfDay = s: int | 0 <= s < 86400

  /** The five-minute tolerance, in seconds. */
  const Tolerance := 300

  function Abs(x: int): nat
  {
    if x < 0 then -x else x
  }

  /**
   * `now` within 300 s of `target` on the same calendar date: the target
   * instant is built from today's date, so there is no wrap across midnight.
   */
  predicate WithinTolerance(target: HourMinute, now: SecondOfDay)
  {
    Abs(now - target.Seconds()) <= Tolerance
  }

  /** `_should_start_instances` once the start time is parsed. */
  predicate StartDue(start: HourMinute, now: SecondOfDay)
  {
    WithinTolerance(start, now)
  }

  /**
   * The `hour * 3600 + minute * 60` of the clock reading: the seconds
   * component is dropped.
   */
  function MinuteOfDaySeconds(now: SecondOfDay): int
  {
    (now / 3600) * 3600 + (now % 3600 / 60) * 60
  }

  /**
   * `_should_stop_instances` once the stop time is parsed: a stop time of
   * 00:00 uses a day-boundary check on the reading without its seconds,
   * any other stop time the same-date tolerance test.
   */
  predicate StopDue(stop: HourMinute, now: SecondOfDay)
  {
    if stop.hour == 0 && stop.minute == 0 then
      var current := MinuteOfDaySeconds(now);
      current >= 23 * 3600 + 55 * 60 || current <= 5 * 60
    else
      WithinTolerance(stop, now)
  }

  lemma {:induction false} MinuteOfDayIsFloor(now: SecondOfDay)
    ensures MinuteOfDaySeconds(now) == now - now % 60
  {
    var h, r := now / 3600, now % 3600;
    assert now == h * 3600 + r;
    assert r == (r / 60) * 60 + r % 60;
    assert now % 60 == r % 60 by {
      assert now == (h * 60 + r / 60) * 60 + r % 60;
    }
  }

  /**
   * The start window is the closed interval [start - 300, start + 300] on
   * the same date: 300 s after the start time is due, 301 s is not.
   */
  lemma {:induction false} StartWindowExact(start: HourMinute, now: SecondOfDay)
    ensures StartDue(start, now) <==> start.Seconds() - 300 <= now <= start.Seconds() + 300
  {
  }

  /** No wrap across midnight: a start time of 00:02 is not due at 23:59. */
  lemma {:induction false} StartWindowDoesNotWrap()
    ensures !StartDue(HourMinute(0, 2), 23 * 3600 + 59 * 60)
    ensures StartDue(HourMinute(9, 0), 9 * 3600 + 300)
    ensures !StartDue(HourMinute(9, 0), 9 * 3600 + 301)
  {
  }

  /**
   * For a stop time of 00:00 the window is [23:55:00, 23:59:59] together
   * with [00:00:00, 00:05:59]: since seconds are dropped, every reading in
   * the minute 00:05 is still due, and 23:54:59 is not.
   */
  lemma {:induction false} MidnightStopWindow(now: SecondOfDay)
    ensures StopDue(HourMinute(0, 0), now) <==> now >= 86100 || now < 360
  {
    MinuteOfDayIsFloor(now);
  }

  /** The two readings that set the midnight stop window apart from the ±300 s rule. */
  lemma {:induction false} MidnightStopIgnoresSeconds()
    ensures StopDue(HourMinute(0, 0), 359)
    ensures !StopDue(HourMinute(0, 0), 86099)
    ensures !WithinTolerance(HourMinute(0, 0), 359)
  {
    MidnightStopWindow(359);
    MidnightStopWindow(86099);
  }

  /** Any stop time other than 00:00 follows the start rule exactly. */
  lemma {:induction false} StopOtherwiseLikeStart(stop: HourMinute, now: SecondOfDay)
    requires stop.hour != 0 || stop.minute != 0
    ensures StopDue(stop, now) <==> StartDue(stop, now)
  {
  }
}
