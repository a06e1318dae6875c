/**
 * Concrete adapters and worked examples: day numbers and calendar dates as
 * date-time representations, each with a comparison that meets the
 * total-preorder contract, and the selectability check applied to specific dates.
 */
module Scenarios {
  import opened Wrappers
  import opened DateTimeAdapter
  import opened Selectability
  import opened Week

  /** Sign of `a - b`: the comparison of day numbers. */
  function CompareDays(a: int, b: int): (r: int)
    ensures r < 0 <==> a < b
    ensures r == 0 <==> a == b
  {
    if a < b then -1 else if a == b then 0 else 1
  }

  lemma CompareDaysIsTotalPreorder()
    ensures TotalPreorder(CompareDays)
  {
  }

  /** A plain calendar date. */
  datatype CalendarDate = Date(year: int, month: int, day: int)

  /** Whether `a` falls strictly before `b`, year first, then month, then day. */
  predicate Before(a: CalendarDate, b: CalendarDate) {
    a.year < b.year
    || (a.year == b.year && a.month < b.month)
    || (a.year == b.year && a.month == b.month && a.day < b.day)
  }

  /** Chronological comparison of calendar dates. */
  function CompareDates(a: CalendarDate, b: CalendarDate): (r: int)
    ensures r < 0 <==> Before(a, b)
    ensures r > 0 <==> Before(b, a)
    ensures r == 0 <==> a == b
  {
    if a.year != b.year then CompareDays(a.year, b.year)
    else if a.month != b.month then CompareDays(a.month, b.month)
    else CompareDays(a.day, b.day)
  }

  lemma CompareDatesIsTotalPreorder()
    ensures TotalPreorder(CompareDates)
  {
  }

  /** January 2024 with an inclusive window from the 10th to the 20th and no filter. */
  function JanuaryWindow(): Constraints<CalendarDate> {
    Constraints(None, Some(Date(2024, 1, 10)), Some(Date(2024, 1, 20)))
  }

  lemma JanuaryWindowScenario()
    ensures DateTimeChecker(CompareDates, JanuaryWindow(), Some(Date(2024, 1, 15)))
    ensures DateTimeChecker(CompareDates, JanuaryWindow(), Some(Date(2024, 1, 10)))
    ensures DateTimeChecker(CompareDates, JanuaryWindow(), Some(Date(2024, 1, 20)))
    ensures !DateTimeChecker(CompareDates, JanuaryWindow(), Some(Date(2024, 1, 5)))
    ensures !DateTimeChecker(CompareDates, JanuaryWindow(), Some(Date(2024, 1, 25)))
  {
  }

  /** A filter admitting Monday to Friday only. */
  predicate IsWorkingDay(day: int) {
    Weekday(day) != Sunday && Weekday(day) != Saturday
  }

  /** Day numbers of two dates of January 2024. */
  const Saturday2024Jan06 := 19728
  const Tuesday2024Jan09 := 19731

  /** With only a working-day filter, a day is selectable exactly when it falls Monday to Friday. */
  lemma WorkingDayFilterScenario(day: int)
    ensures DateTimeChecker(CompareDays, Constraints(Some(IsWorkingDay), None, None), Some(day))
            <==> 1 <= Weekday(day) <= 5
    ensures !DateTimeChecker(CompareDays, Constraints(Some(IsWorkingDay), None, None), Some(Saturday2024Jan06))
    ensures DateTimeChecker(CompareDays, Constraints(Some(IsWorkingDay), None, None), Some(Tuesday2024Jan09))
  {
  }

  /** `setToNextWeek` on Friday 2024-01-05 (day 19727) selects Monday 2024-01-08. */
  lemma NextWeekFromFridayScenario()
    ensures Weekday(19727) == 5
    ensures NextWeekDay(19727) == 19730
  {
  }
}
