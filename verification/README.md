# Selectability core of the `OwlDateTime<T>` picker base class

A Dafny model of the logic in the abstract picker base class of the
ngx date-time picker (`projects/picker/src/lib/date-time/date-time.class.ts`):

- **`dateTimeChecker`** — whether a date-time may be selected: it must be
  present, accepted by the optional filter, not before the optional minimum
  and not after the optional maximum (both bounds inclusive, judged by the
  adapter's `compare`). The model keeps the source's short-circuit order:
  `Selectability.EvalGuards` runs the configured guards (filter, minimum,
  maximum) one by one and records how many collaborator calls were made, so
  it can be stated that an absent value consults nothing and a rejecting
  filter prevents every `compare` call. `Selectability.DateTimeChecker` is
  then proved equal to the plain four-way conjunction. Under the assumption
  that `compare` is a total preorder (`DateTimeAdapter.TotalPreorder`), widening the
  constraints is proved never to lose a selectable value.
- **`getValidDate`** — the normaliser that passes a candidate through only if
  the adapter recognises it as a date-time instance and finds it valid.
- **The `firstDayOfWeek` setter** — stores a weekday index 0..6, otherwise
  `undefined` (`None`), leaving every other setting unchanged.
- **`setToNextWeek`'s day arithmetic** — the offset `(1 + 7 - getDay()) % 7`,
  proved to reach the first Monday on or after today, whatever first day
  of the week is configured.
- **`formatString`** — which format-catalogue entry each picker type uses.
- **The constructor's provider checks** — a missing adapter or format catalogue
  is an error (`Result.Failure`), the adapter being checked first.

The adapter (`compare`, `isDateInstance`, `isValid`) is defined outside this
file, so it is a record of function values (`DateTimeAdapter.Adapter`). The
abstract getters `dateTimeFilter`, `minDateTime` and `maxDateTime` become the
`Selectability.Constraints` parameter. TypeScript's `null`/`undefined` is `Option.None`.
The candidate passed to `getValidDate` is typed `any` in the source. The
model uses the adapter's own type `T` for it, read as "any value the adapter
can be asked about". Days in `Week` are numbered from 1970-01-01, which was a
Thursday, so JavaScript's `getDay` is `(day + 4) % 7`. The clock reading
"today" is a parameter. `Scenarios` gives two concrete adapters, day numbers
and calendar dates. Both are proved to be total preorders, and both are used
in worked examples.

Two points worth noting. In both, the model
follows the code as written:
- From a Friday, the next-week formula moves three days, to **Monday**, not
  to the following Sunday or to the configured first day of the week. See
  `Week.FridayMovesToMonday` and `Scenarios.NextWeekFromFridayScenario`.
- The adapter's comparison is usually described as a strict total order on
  valid values. The model assumes only a total preorder, and only in the
  lemmas that need it.

The next-week formula returns offset 0 on a Monday, so "next week" selects
today (`Week.NextWeekOffset`, `r == 0 <==> weekday == Monday`). It also
ignores the configured `firstDayOfWeek`. Both behaviours are modelled as
written.

## Model

| member | source | states |
|---|---|---|
| Selectability.DateTimeChecker | projects/picker/src/lib/date-time/date-time.class.ts:208-218 | selectable iff the value is present, there is no filter or it accepts, there is no minimum or `compare(d, min) >= 0`, and there is no maximum or `compare(d, max) <= 0` |
| Selectability.Guards | projects/picker/src/lib/date-time/date-time.class.ts:211-216 | one guard per configured constraint, carrying that constraint's filter or bound, in the source's order: filter before minimum before maximum |
| Selectability.EvalGuards | projects/picker/src/lib/date-time/date-time.class.ts:209-217 | short-circuit `&&` over the configured guards: true iff every guard passes; when false, the guards consulted are exactly those up to and including the first failing one; when true, all were consulted |
| Selectability.Evaluate | projects/picker/src/lib/date-time/date-time.class.ts:208-217 | the verdict equals the declarative conjunction; for an absent value no collaborator is consulted; at most one call per configured constraint |
| Selectability.GuardsMeanAccepted | projects/picker/src/lib/date-time/date-time.class.ts:211-216 | the guard sequence built from the configuration (filter, min, max, in source order) all pass iff the three declarative constraints hold |
| Selectability.AbsentNeverSelectable | projects/picker/src/lib/date-time/date-time.class.ts:210-211 | an absent value is never selectable and the filter and `compare` are not called for it |
| Selectability.UnconstrainedSelectsEverything | projects/picker/src/lib/date-time/date-time.class.ts:208-217 | with no filter and no bounds every present value is selectable |
| Selectability.FilterRejectionIsFinal | projects/picker/src/lib/date-time/date-time.class.ts:211 | a filter returning false forces false whatever the bounds, after exactly one call (the filter's) |
| Selectability.BelowMinRejected | projects/picker/src/lib/date-time/date-time.class.ts:212-214 | `compare(d, min) < 0` forces false |
| Selectability.AboveMaxRejected | projects/picker/src/lib/date-time/date-time.class.ts:215-216 | `compare(d, max) > 0` forces false |
| Selectability.BoundsAreInclusive | projects/picker/src/lib/date-time/date-time.class.ts:212-216 | a value comparing equal to a bound gets the same answer as with that bound removed |
| Selectability.MinIsSelectable | projects/picker/src/lib/date-time/date-time.class.ts:212-214 | for a total preorder, the minimum itself is selectable iff the filter accepts it and the maximum admits it |
| Selectability.MaxIsSelectable | projects/picker/src/lib/date-time/date-time.class.ts:215-216 | for a total preorder, the maximum itself is selectable iff the filter accepts it and the minimum admits it |
| Selectability.InvertedBoundsSelectNothing | projects/picker/src/lib/date-time/date-time.class.ts:212-216 | the bounds are applied independently: for a total preorder with min after max, nothing is selectable |
| Selectability.LowerMinKeepsSelectable | projects/picker/src/lib/date-time/date-time.class.ts:212-214 | for a total preorder, lowering or removing the minimum keeps a selectable value selectable |
| Selectability.RaiseMaxKeepsSelectable | projects/picker/src/lib/date-time/date-time.class.ts:215-216 | for a total preorder, raising or removing the maximum keeps a selectable value selectable |
| Selectability.RemoveFilterKeepsSelectable | projects/picker/src/lib/date-time/date-time.class.ts:211 | removing the filter keeps a selectable value selectable |
| Selectability.WideningKeepsSelectable | projects/picker/src/lib/date-time/date-time.class.ts:208-217 | for a total preorder, a more permissive filter together with a lower minimum and a higher maximum keeps a selectable value selectable |
| Normalize.GetValidDate | projects/picker/src/lib/date-time/date-time.class.ts:220-225 | returns the candidate itself iff it is a date instance and valid, otherwise null |
| Normalize.GetValidDateIdempotent | projects/picker/src/lib/date-time/date-time.class.ts:220-225 | normalising a non-null result again returns it unchanged |
| Normalize.UnconstrainedSelectableIffValid | projects/picker/src/lib/date-time/date-time.class.ts:208-225 | with no filter and no bounds, a normalised candidate is selectable iff it is a date instance and valid |
| Normalize.RejectedNeverSelectable | projects/picker/src/lib/date-time/date-time.class.ts:208-225 | a candidate that normalisation rejects is never selectable, under any constraints |
| Settings.SetFirstDayOfWeek | projects/picker/src/lib/date-time/date-time.class.ts:134-141 | stores the value iff it is in 0..6 and `undefined` iff it is below 0 or above 6; the stored value is always a valid weekday or undefined; no other setting changes |
| Settings.Defaults | projects/picker/src/lib/date-time/date-time.class.ts:23-146 | the eight field initialisers (lines 23, 57, 71, 85, 99, 113, 127, 146): month start view, seconds timer off, 24-hour clock, unit hour/minute/second steps, first day of week undefined (which satisfies the setter's invariant), other months' days shown |
| Settings.LastWriteWins | projects/picker/src/lib/date-time/date-time.class.ts:134-141 | two successive writes have the effect of the second alone |
| Settings.GetThenSetIsIdentity | projects/picker/src/lib/date-time/date-time.class.ts:129-141 | writing back the value the getter returns leaves the settings unchanged, when the getter returns a weekday |
| Week.Weekday | projects/picker/src/lib/date-time/date-time.class.ts:240 | `getDay` on a day number: the index in 0..6 congruent to the day number plus 4 modulo 7 (1970-01-01 was a Thursday) |
| Week.WeekdayShift | projects/picker/src/lib/date-time/date-time.class.ts:240 | moving `k` days with `setDate(getDate() + k)` moves the weekday index `k` places forward, modulo 7 |
| Week.NextWeekOffset | projects/picker/src/lib/date-time/date-time.class.ts:240 | for a weekday in 0..6 the offset lies in 0..6, lands on Monday, passes no Monday before it, and is 0 exactly on a Monday |
| Week.NextWeekDay | projects/picker/src/lib/date-time/date-time.class.ts:238-241 | the selected day is the first Monday on or after today, less than a week ahead |
| Week.NextWeekIgnoresFirstDayOfWeek | projects/picker/src/lib/date-time/date-time.class.ts:238-241 | the selected day never falls on a configured first day of week other than Monday |
| Week.FridayMovesToMonday | projects/picker/src/lib/date-time/date-time.class.ts:240 | from Friday (5) the offset is 3 and lands on Monday |
| Formats.FormatString | projects/picker/src/lib/date-time/date-time.class.ts:187-193 | the format is the catalogue entry named by the picker type's entry: full for both, date for calendar, time for timer |
| Formats.EntryForIsBijective | projects/picker/src/lib/date-time/date-time.class.ts:187-193 | picker types and input-format entries correspond one to one |
| Formats.DistinctFormatsDistinguishPickerTypes | projects/picker/src/lib/date-time/date-time.class.ts:187-193 | with three distinct catalogue formats, two picker types get the same format iff they are equal |
| Picker.Create | projects/picker/src/lib/date-time/date-time.class.ts:29-52 | construction succeeds iff both providers are present; a missing adapter is reported whatever the formats; a missing format catalogue is reported otherwise; a constructed picker holds the given providers and the default settings |
| Picker.CreatedPickerHasValidFirstDay | projects/picker/src/lib/date-time/date-time.class.ts:29-52 | construction with both providers succeeds, and the new picker's first day of week satisfies the setter's invariant |
| Scenarios.CompareDatesIsTotalPreorder | projects/picker/src/lib/date-time/date-time.class.ts:213 | chronological comparison of calendar dates meets the total-preorder contract the bound lemmas assume |
| Scenarios.JanuaryWindowScenario | projects/picker/src/lib/date-time/date-time.class.ts:208-217 | with bounds 2024-01-10..2024-01-20 and no filter: the 15th and both bounds are selectable, the 5th and the 25th are not |
| Scenarios.WorkingDayFilterScenario | projects/picker/src/lib/date-time/date-time.class.ts:208-211 | with a working-day filter and no bounds, a day is selectable iff it falls Monday to Friday; Saturday 2024-01-06 is not, Tuesday 2024-01-09 is |
| Scenarios.NextWeekFromFridayScenario | projects/picker/src/lib/date-time/date-time.class.ts:238-241 | on Friday 2024-01-05 the next-week day is Monday 2024-01-08 |

## Left out

- `setToToday`, `setToTomorrow`, `setToNone` and the `select` call of `setToNextWeek`: `select` is abstract here, and `setToNone` does nothing but pass it `null`. `setToToday`, `setToTomorrow` and `setToNextWeek` read the system clock and use JavaScript `Date` arithmetic, including daylight-saving behaviour. Only the next-week day arithmetic is modelled, on day numbers.
- `select`, `selectYear`, `selectMonth` and the abstract getters (`selected`, `selecteds`, `selectMode`, `startAt`, `endAt`, `opened`, `pickerMode`, `isInSingleMode`, `isInRangeMode`): they are abstract, with no implementation in this file. `dateTimeFilter`, `minDateTime`, `maxDateTime` and `pickerType` are parameters of the model.
- The `showSecondsTimer`, `hour12Timer`, `stepHour`, `stepMinute`, `stepSecond` and `hideOtherMonths` setters: each is only a call to the framework coercion helpers `coerceBooleanProperty` or `coerceNumberProperty`, whose code is not part of this model. Their initial values are in `Settings.Defaults`.
- Settings.GetThenSetIsIdentity: covers only a getter value that is a weekday. When the getter returns `undefined`, as it does on a fresh picker, writing that back stores 0 (Sunday) in the source, because `coerceNumberProperty` maps `undefined` to 0.
- Settings.SetFirstDayOfWeek: takes an integer only. The source first coerces its input with `coerceNumberProperty` (default fallback 0), which is not part of this model. On other inputs the source stores fractions in 0..6 as they are, stores `undefined` for infinities, and stores 0 for NaN and any other non-numeric input, `undefined` included.
- Selectability.DateTimeChecker: "present" means not `null`/`undefined`. JavaScript's other falsy values (`0`, `''`, `false`, `NaN`) are not date-time values and are not modelled. The same holds for the truthiness tests on the filter and the bounds. A `compare` that returns NaN is not modelled either.
- Normalize.GetValidDate: `isValid` is modelled as total. In the source, the short-circuit `&&` calls it only on recognised instances. Both adapter predicates are pure, so the result is the same.
- The `id` getter and the module-level `nextUniqueId` counter: hidden global mutable state.
- The `disabled` getter (always `false`), the `@Input` binding of `startView` (its initial value is in `Settings.Defaults`), the event emitters and the framework decorators and dependency injection: presentation plumbing with no logic. The injection of the two providers is modelled as `Option` arguments of `Picker.Create`.
