/**
 * The day arithmetic of `setToNextWeek`. Days are numbered from 1970-01-01,
 * a Thursday; the clock reading "today" is a parameter.
 */
module Week {

  /** Weekday indices as JavaScript's `getDay` returns them: 0 is Sunday. */
  const Sunday := 0
  const Monday := 1
  const Saturday := 6

  /**
   * JavaScript's `getDay` on day number `day`: the weekday index congruent to
   * `day + 4` modulo 7, since day 0 (1970-01-01) is a Thursday.
   */
  function Weekday(day: int): (w: int)
    ensures 0 <= w <= 6
    ensures (day + 4 - w) % 7 == 0
  {
    (day + 4) % 7
  }

  /** The weekday index `k` days after weekday index `weekday`. */
  function Advance(weekday: int, k: int): (w: int)
    ensures 0 <= w <= 6
  {
    (weekday + k) % 7
  }

  /** Moving `k` days forward moves `k` weekdays forward, wrapping after Saturday. */
  lemma WeekdayShift(day: int, k: int)
    ensures Weekday(day + k) == Advance(Weekday(day), k)
  {
  }

  /**
   * The offset `(1 + 7 - weekday) % 7`: the number of days from a day with
   * index `weekday` to the nearest Monday on or after it.
   */
  function NextWeekOffset(weekday: int): (r: int)
    requires 0 <= weekday <= 6
    ensures 0 <= r <= 6
    ensures Advance(weekday, r) == Monday
    ensures forall k :: 0 <= k < r ==> Advance(weekday, k) != Monday
    ensures r == 0 <==> weekday == Monday
  {
    (1 + 7 - weekday) % 7
  }

  /**
   * The day `setToNextWeek` selects: the first Monday on or after `today`
   * (which is `today` itself when that is a Monday).
   */
  function NextWeekDay(today: int): (r: int)
    ensures today <= r < today + 7
    ensures Weekday(r) == Monday
    ensures forall k :: today <= k < r ==> Weekday(k) != Monday
  {
    var offset := NextWeekOffset(Weekday(today));
    WeekdayShift(today, offset);
    assert forall k :: today <= k < today + offset ==> Weekday(k) != Monday by {
      forall k | today <= k < today + offset
        ensures Weekday(k) != Monday
      {
        WeekdayShift(today, k - today);
      }
    }
    today + offset
  }

  /**
   * `NextWeekDay` takes no first-day-of-week argument, so the configured value
   * cannot influence it; this corollary of its `Weekday(r) == Monday` spells
   * out that it never lands on a configured first day other than Monday.
   */
  lemma NextWeekIgnoresFirstDayOfWeek(today: int, firstDayOfWeek: int)
    requires 0 <= firstDayOfWeek <= 6 && firstDayOfWeek != Monday
    ensures Weekday(NextWeekDay(today)) != firstDayOfWeek
  {
  }

  /** From a Friday the formula moves three days, to Monday. */
  lemma FridayMovesToMonday()
    ensures NextWeekOffset(5) == 3
    ensures Advance(5, NextWeekOffset(5)) == Monday
  {
  }
}
