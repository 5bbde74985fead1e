/**
 * util/DateUtils.kt: whether a time stamp falls in the current day, week,
 * month or year. Each test reads calendar fields of "now" and of the stamp
 * and compares them; the calendar and the clock are parameters.
 */
module DateUtils {
  import opened Ledger

  /** Same day of the year and same year: a day of the current year, and "now" itself passes. */
  predicate IsCurrentDay(cal: Calendar, now: int, t: int): (b: bool)
    ensures b ==> IsCurrentYear(cal, now, t)
    ensures t == now ==> b
  {
    cal(now).dayOfYear == cal(t).dayOfYear && cal(now).year == cal(t).year
  }

  /** Same week of the year and same calendar year (not the week-based year). */
  predicate IsCurrentWeek(cal: Calendar, now: int, t: int): (b: bool)
    ensures b ==> IsCurrentYear(cal, now, t)
    ensures t == now ==> b
  {
    cal(now).weekOfYear == cal(t).weekOfYear && cal(now).year == cal(t).year
  }

  /** Same month and same year. */
  predicate IsCurrentMonth(cal: Calendar, now: int, t: int): (b: bool)
    ensures b ==> IsCurrentYear(cal, now, t)
    ensures t == now ==> b
  {
    cal(now).month == cal(t).month && cal(now).year == cal(t).year
  }

  /** Same calendar year; "now" itself passes. */
  predicate IsCurrentYear(cal: Calendar, now: int, t: int): (b: bool)
    ensures t == now ==> b
  {
    cal(now).year == cal(t).year
  }

  /**
   * A week that straddles New Year: the last days of December that the
   * calendar already numbers week 1 of the next year do not count as the
   * current week when "now" is in early January.
   */
  lemma {:induction false} WeekUsesCalendarYear(cal: Calendar, now: int, t: int)
    requires cal(now).weekOfYear == 1 && cal(t).weekOfYear == 1
    requires cal(now).year == cal(t).year + 1
    ensures !IsCurrentWeek(cal, now, t)
  {
  }
}
