/**
 * Business hours: a half-open window [start, end) over the time of day, with
 * no wrap past midnight and no distinction between days.
 */
module OfficeHoursService {
  import opened Models

  /** Ticks in one day (TimeSpan ticks are 100 ns). */
  const TicksPerDay: int := 864_000_000_000

  type TimeOfDay = t: int | 0 <= t < TicksPerDay

  /** The time of day of an instant; the instant is already on the local clock. */
  function TimeOfDayOf(now: Instant): (t: TimeOfDay)
    ensures exists days :: now == days * TicksPerDay + t
  {
    var t := now % TicksPerDay;
    assert now == (now / TicksPerDay) * TicksPerDay + t;
    t
  }

  datatype OfficeHours = OfficeHours(start: TimeOfDay, end: TimeOfDay) {

    /** True iff the time of day of `now` lies in [start, end): the window is read on `now` modulo one day. */
    predicate IsWithinOfficeHours(now: Instant)
      ensures IsWithinOfficeHours(now) <==> start <= now % TicksPerDay < end
    {
      var t := TimeOfDayOf(now);
      start <= t && t < end
    }
  }

  /** The start instant is inside the window, the end instant is outside. */
  lemma StartInsideEndOutside(h: OfficeHours, day: int)
    requires h.start < h.end
    ensures h.IsWithinOfficeHours(day * TicksPerDay + h.start)
    ensures !h.IsWithinOfficeHours(day * TicksPerDay + h.end)
  {
    TimeOfDayShift(h.start, day);
    TimeOfDayShift(h.end, day);
  }

  /** A window whose start is not before its end is always closed: there is no overnight wrap. */
  lemma EmptyWindowNeverOpen(h: OfficeHours, now: Instant)
    requires h.start >= h.end
    ensures !h.IsWithinOfficeHours(now)
  {
  }

  /** Only the time of day matters: instants a whole number of days apart get the same answer. */
  lemma OnlyTimeOfDayMatters(h: OfficeHours, now: Instant, days: int)
    ensures h.IsWithinOfficeHours(now + days * TicksPerDay) == h.IsWithinOfficeHours(now)
  {
    TimeOfDayShiftAny(now, days);
  }

  /** Adding whole days to a time of day keeps it. */
  lemma TimeOfDayShift(t: TimeOfDay, days: int)
    ensures TimeOfDayOf(days * TicksPerDay + t) == t
  {
    TimeOfDayShiftAny(t, days);
  }

  /** Adding whole days to any instant keeps its time of day. */
  lemma TimeOfDayShiftAny(now: Instant, days: int)
    ensures TimeOfDayOf(now + days * TicksPerDay) == TimeOfDayOf(now)
    ensures TimeOfDayOf(days * TicksPerDay + now) == TimeOfDayOf(now)
  {
    var q := now / TicksPerDay;
    var r := now % TicksPerDay;
    assert now + days * TicksPerDay == (q + days) * TicksPerDay + r;
    UniqueRemainder(now + days * TicksPerDay, q + days, r);
  }

  /** A representation x = q * D + r with 0 <= r < D fixes the remainder. */
  lemma UniqueRemainder(x: int, q: int, r: int)
    requires 0 <= r < TicksPerDay
    requires x == q * TicksPerDay + r
    ensures x % TicksPerDay == r
  {
    var q' := x / TicksPerDay;
    var r' := x % TicksPerDay;
    assert x == q' * TicksPerDay + r';
    assert (q - q') * TicksPerDay == r' - r;
  }
}
