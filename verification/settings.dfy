/**
 * The picker's stored configuration, with its initial values, and the
 * range-validating `firstDayOfWeek` setter.
 */
module Settings {
  import opened Wrappers

  /** The view the calendar starts in. */
  datatype StartView = Month | Year | MultiYears

  /** `firstDayOfWeek` is `None` for the source's `undefined`; 0 is Sunday. */
  datatype PickerSettings = PickerSettings(
    startView: StartView,
    showSecondsTimer: bool,
    hour12Timer: bool,
    stepHour: int,
    stepMinute: int,
    stepSecond: int,
    firstDayOfWeek: Option<int>,
    hideOtherMonths: bool
  )

  /**
   * The field initialisers of a freshly constructed picker: month view, no
   * seconds timer, 24-hour clock, unit steps, no first day of week, other
   * months' days shown.
   */
  function Defaults(): (s: PickerSettings)
    ensures s.startView == Month
    ensures !s.showSecondsTimer && !s.hour12Timer && !s.hideOtherMonths
    ensures s.stepHour == 1 && s.stepMinute == 1 && s.stepSecond == 1
    ensures s.firstDayOfWeek.None? && ValidFirstDayOfWeek(s.firstDayOfWeek)
  {
    PickerSettings(Month, false, false, 1, 1, 1, None, false)
  }

  /** A stored first day of week is undefined or a weekday index 0..6. */
  predicate ValidFirstDayOfWeek(d: Option<int>) {
    d.None? || 0 <= d.value <= 6
  }

  /**
   * The `firstDayOfWeek` setter on an already numeric, integral input: keeps
   * a weekday index and discards anything else, touching no other field.
   */
  function SetFirstDayOfWeek(s: PickerSettings, value: int): (r: PickerSettings)
    ensures r.firstDayOfWeek == Some(value) <==> 0 <= value <= 6
    ensures r.firstDayOfWeek.None? <==> value < 0 || value > 6
    ensures ValidFirstDayOfWeek(r.firstDayOfWeek)
    ensures r.(firstDayOfWeek := s.firstDayOfWeek) == s
  {
    if value > 6 || value < 0 then
      s.(firstDayOfWeek := None)
    else
      s.(firstDayOfWeek := Some(value))
  }

  /** Each write replaces the previous one entirely: the last write wins. */
  lemma LastWriteWins(s: PickerSettings, a: int, b: int)
    ensures SetFirstDayOfWeek(SetFirstDayOfWeek(s, a), b) == SetFirstDayOfWeek(s, b)
  {
  }

  /**
   * Writing back what the getter returns changes nothing, when the getter
   * returns a weekday. (Writing back `undefined` is not covered: the source
   * coerces it to 0 first.)
   */
  lemma GetThenSetIsIdentity(s: PickerSettings)
    requires s.firstDayOfWeek.Some? && ValidFirstDayOfWeek(s.firstDayOfWeek)
    ensures SetFirstDayOfWeek(s, s.firstDayOfWeek.value) == s
  {
  }
}
