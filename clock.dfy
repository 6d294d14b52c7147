/**
 * Instants and calendar components under one fixed calendar.
 *
 * An instant is a whole number of minutes since a fixed epoch; a day has
 * exactly 1440 minutes (no time zones, no daylight saving, no seconds).
 * The notification triggers of the app match on the (day, hour, minute)
 * components of an instant, and the reservation screen compares the hour
 * and minute of "now" with the configured reserve time of day.
 */
module Clock {

  const MinutesPerHour: int := 60
  const HoursPerDay: int := 24
  const MinutesPerDay: int := 1440

  /** Minutes since the calendar's epoch. */
  type Instant = int

  /** A time of day as the app's `DateComponents(hour:minute:)` carries it. */
  datatype TimeOfDay = TimeOfDay(hour: int, minute: int)

  /** The `[.day, .hour, .minute]` components a calendar extracts from an instant. */
  datatype Components = Components(day: int, hour: int, minute: int)

  function DayOf(t: Instant): int { t / MinutesPerDay }

  function HourOf(t: Instant): int { (t % MinutesPerDay) / MinutesPerHour }

  function MinuteOf(t: Instant): int { t % MinutesPerHour }

  /** Minutes elapsed since midnight of the day of `t`. */
  function MinuteOfDay(t: Instant): int { t % MinutesPerDay }

  /** The instant that a set of components names. */
  function InstantOf(c: Components): Instant {
    c.day * MinutesPerDay + c.hour * MinutesPerHour + c.minute
  }

  /** Euclidean division is unique: any quotient/remainder pair in range is the one `/` and `%` give. */
  lemma DivModUnique(t: int, d: int, q: int, r: int)
    requires d > 0 && 0 <= r < d && t == q * d + r
    ensures t / d == q && t % d == r
  {
    var q0, r0 := t / d, t % d;
    assert t == q0 * d + r0;
    assert (q - q0) * d == r0 - r;
    if q > q0 {
      MulAtLeast(q - q0, d);
      assert false;
    } else if q < q0 {
      MulAtLeast(q0 - q, d);
      assert false;
    }
  }

  lemma MulAtLeast(a: int, d: int)
    requires a >= 1 && d > 0
    ensures a * d >= d
  {
  }

  /** The components of an instant, and the facts that make them components. */
  function ComponentsOf(t: Instant): (c: Components)
    ensures 0 <= c.hour < HoursPerDay && 0 <= c.minute < MinutesPerHour
    ensures InstantOf(c) == t
  {
    var m := t % MinutesPerDay;
    assert t == (t / MinutesPerDay) * MinutesPerDay + m;
    assert m == (m / MinutesPerHour) * MinutesPerHour + m % MinutesPerHour;
    DivModUnique(t, MinutesPerHour, (t / MinutesPerDay) * HoursPerDay + m / MinutesPerHour, m % MinutesPerHour);
    Components(DayOf(t), HourOf(t), MinuteOf(t))
  }

  /** Components in range name exactly one instant: extracting them again gives them back. */
  lemma ComponentsRoundTrip(c: Components)
    requires 0 <= c.hour < HoursPerDay && 0 <= c.minute < MinutesPerHour
    ensures ComponentsOf(InstantOf(c)) == c
  {
    var t := InstantOf(c);
    var m := c.hour * MinutesPerHour + c.minute;
    assert 0 <= m < MinutesPerDay;
    DivModUnique(t, MinutesPerDay, c.day, m);
    DivModUnique(m, MinutesPerHour, c.hour, c.minute);
    DivModUnique(t, MinutesPerHour, c.day * HoursPerDay + c.hour, c.minute);
  }

  /** The hour and minute of an instant, read together, are its minute of the day. */
  lemma MinuteOfDayParts(t: Instant)
    ensures MinuteOfDay(t) == HourOf(t) * MinutesPerHour + MinuteOf(t)
    ensures 0 <= HourOf(t) < HoursPerDay && 0 <= MinuteOf(t) < MinutesPerHour
  {
    var c := ComponentsOf(t);
    var m := t % MinutesPerDay;
    assert m == (m / MinutesPerHour) * MinutesPerHour + m % MinutesPerHour;
    DivModUnique(t, MinutesPerHour, (t / MinutesPerDay) * HoursPerDay + m / MinutesPerHour, m % MinutesPerHour);
  }
}
