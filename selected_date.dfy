/**
 * src/hooks/useSelectedDate.ts: the day the planner shows, kept as an
 * offset in days from today, and the instant derived from it.
 *
 * The current time the hook re-renders with and the `new Date()` read by
 * goToDate are parameters; the local calendar is the Calendar oracle.
 */
module SelectedDate {
  import opened Common
  import opened Types

  /**
   * What the hook relies on from the local calendar: the clock fields are
   * in range, startOfDay keeps the day and clears the milliseconds,
   * addDays moves by whole calendar days keeping the milliseconds, and
   * setHours(h, m, s) keeps the day and the milliseconds and sets the rest.
   */
  ghost predicate CalendarLaws(cal: Calendar) {
    && (forall t :: 0 <= cal.hours(t) <= 23 && 0 <= cal.minutes(t) <= 59 && 0 <= cal.seconds(t) <= 59)
    && (forall t :: cal.dayIndex(cal.startOfDay(t)) == cal.dayIndex(t) && cal.millis(cal.startOfDay(t)) == 0)
    && (forall t, n :: cal.dayIndex(cal.addDays(t, n)) == cal.dayIndex(t) + n && cal.millis(cal.addDays(t, n)) == cal.millis(t))
    && (forall t, h, m, s :: 0 <= h <= 23 && 0 <= m <= 59 && 0 <= s <= 59 ==>
          (&& cal.dayIndex(cal.setHms(t, h, m, s)) == cal.dayIndex(t)
           && cal.hours(cal.setHms(t, h, m, s)) == h
           && cal.minutes(cal.setHms(t, h, m, s)) == m
           && cal.seconds(cal.setHms(t, h, m, s)) == s
           && cal.millis(cal.setHms(t, h, m, s)) == cal.millis(t)))
  }

  /** date-fns differenceInCalendarDays: how many calendar days lie from `earlier` to `later`. */
  function DifferenceInCalendarDays(cal: Calendar, later: Instant, earlier: Instant): int {
    cal.dayIndex(later) - cal.dayIndex(earlier)
  }

  /**
   * The `useMemo` body: now itself on the current day; otherwise the start
   * of the current day moved by the offset, with now's hours, minutes and
   * seconds set on it.
   */
  function SelectedDateOf(cal: Calendar, now: Instant, dayOffset: int): (r: Instant)
    ensures dayOffset == 0 ==> r == now
  {
    if dayOffset == 0 then now
    else
      var offsetDate := cal.addDays(cal.startOfDay(now), dayOffset);
      cal.setHms(offsetDate, cal.hours(now), cal.minutes(now), cal.seconds(now))
  }

  /**
   * The date shown falls on today's calendar day plus the offset, at now's
   * time of day to the second; away from today its milliseconds are zero.
   */
  lemma SelectedDateFields(cal: Calendar, now: Instant, dayOffset: int)
    requires CalendarLaws(cal)
    ensures cal.dayIndex(SelectedDateOf(cal, now, dayOffset)) == cal.dayIndex(now) + dayOffset
    ensures cal.hours(SelectedDateOf(cal, now, dayOffset)) == cal.hours(now)
    ensures cal.minutes(SelectedDateOf(cal, now, dayOffset)) == cal.minutes(now)
    ensures cal.seconds(SelectedDateOf(cal, now, dayOffset)) == cal.seconds(now)
    ensures dayOffset != 0 ==> cal.millis(SelectedDateOf(cal, now, dayOffset)) == 0
  {
    if dayOffset != 0 {
      var base := cal.startOfDay(now);
      var offsetDate := cal.addDays(base, dayOffset);
      assert cal.dayIndex(offsetDate) == cal.dayIndex(now) + dayOffset;
      assert cal.millis(offsetDate) == 0;
    }
  }

  /** One step of the offset is one calendar day of the date shown. */
  lemma NextDayIsOneDayLater(cal: Calendar, now: Instant, dayOffset: int)
    requires CalendarLaws(cal)
    ensures cal.dayIndex(SelectedDateOf(cal, now, dayOffset + 1)) == cal.dayIndex(SelectedDateOf(cal, now, dayOffset)) + 1
  {
    SelectedDateFields(cal, now, dayOffset);
    SelectedDateFields(cal, now, dayOffset + 1);
  }

  /**
   * After goToDate, when the clock it read is on the same day as the time
   * the hook renders with, the date shown is on the chosen day.
   */
  lemma GoToDateShowsThatDay(cal: Calendar, now: Instant, clockNow: Instant, date: Instant)
    requires CalendarLaws(cal)
    requires cal.dayIndex(clockNow) == cal.dayIndex(now)
    ensures cal.dayIndex(SelectedDateOf(cal, now, DifferenceInCalendarDays(cal, date, cal.startOfDay(clockNow)))) == cal.dayIndex(date)
  {
    SelectedDateFields(cal, now, DifferenceInCalendarDays(cal, date, cal.startOfDay(clockNow)));
  }

  class DaySelection {
    /** The `useState(0)` day offset. */
    var dayOffset: int

    constructor()
      ensures dayOffset == 0
    {
      dayOffset := 0;
    }

    /** isToday: the offset is zero. */
    predicate IsToday()
      reads this
    {
      dayOffset == 0
    }

    /** selectedDate for the time the hook renders with. */
    function SelectedDate(cal: Calendar, now: Instant): (r: Instant)
      reads this
      ensures IsToday() ==> r == now
    {
      SelectedDateOf(cal, now, dayOffset)
    }

    method GoToPreviousDay()
      modifies this
      ensures dayOffset == old(dayOffset) - 1
    {
      dayOffset := dayOffset - 1;
    }

    method GoToNextDay()
      modifies this
      ensures dayOffset == old(dayOffset) + 1
    {
      dayOffset := dayOffset + 1;
    }

    method GoToToday()
      modifies this
      ensures dayOffset == 0 && IsToday()
    {
      dayOffset := 0;
    }

    /** goToDate: the calendar days from the start of the clock's day to the chosen date. */
    method GoToDate(cal: Calendar, date: Instant, clockNow: Instant)
      modifies this
      ensures dayOffset == DifferenceInCalendarDays(cal, date, cal.startOfDay(clockNow))
    {
      var diff := DifferenceInCalendarDays(cal, date, cal.startOfDay(clockNow));
      dayOffset := diff;
    }
  }

  /** Next then previous comes back to the same offset, and so to the same date. */
  method NextThenPrevious(selection: DaySelection)
    modifies selection
    ensures selection.dayOffset == old(selection.dayOffset)
  {
    selection.GoToNextDay();
    selection.GoToPreviousDay();
  }
}
