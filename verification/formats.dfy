/**
 * The derived `formatString` property: which entry of the injected format
 * catalogue governs the input, by picker type.
 */
module Formats {

  /** Which sub-views the picker shows. */
  datatype PickerType = Both | Calendar | Timer

  /** The three input formats of the catalogue; `F` is whatever the host uses to describe a format. */
  datatype FormatCatalog<F> = FormatCatalog(fullPickerInput: F, datePickerInput: F, timePickerInput: F)

  /** Names of the catalogue entries the input may be governed by. */
  datatype InputEntry = FullPickerInput | DatePickerInput | TimePickerInput

  /** Reading one named entry of the catalogue. */
  function Lookup<F>(formats: FormatCatalog<F>, e: InputEntry): F {
    match e
    case FullPickerInput => formats.fullPickerInput
    case DatePickerInput => formats.datePickerInput
    case TimePickerInput => formats.timePickerInput
  }

  /** The entry each picker type uses: both views take the full format, each single view its own. */
  function EntryFor(t: PickerType): (e: InputEntry)
    ensures t == Calendar <==> e == DatePickerInput
    ensures t == Timer <==> e == TimePickerInput
  {
    match t
    case Both => FullPickerInput
    case Calendar => DatePickerInput
    case Timer => TimePickerInput
  }

  /** The picker type an entry belongs to. */
  function PickerTypeFor(e: InputEntry): PickerType {
    match e
    case FullPickerInput => Both
    case DatePickerInput => Calendar
    case TimePickerInput => Timer
  }

  /** Picker types and input entries correspond one to one. */
  lemma EntryForIsBijective(t: PickerType, e: InputEntry)
    ensures PickerTypeFor(EntryFor(t)) == t
    ensures EntryFor(PickerTypeFor(e)) == e
  {
  }

  /** `formatString`: the catalogue entry selected by the picker type. */
  function FormatString<F>(t: PickerType, formats: FormatCatalog<F>): (r: F)
    ensures r == Lookup(formats, EntryFor(t))
  {
    if t == Both then formats.fullPickerInput
    else if t == Calendar then formats.datePickerInput
    else formats.timePickerInput
  }

  /**
   * When the catalogue's three formats differ, the format in use tells the
   * picker types apart.
   */
  lemma DistinctFormatsDistinguishPickerTypes<F>(formats: FormatCatalog<F>, t: PickerType, u: PickerType)
    requires formats.fullPickerInput != formats.datePickerInput
    requires formats.fullPickerInput != formats.timePickerInput
    requires formats.datePickerInput != formats.timePickerInput
    ensures FormatString(t, formats) == FormatString(u, formats) <==> t == u
  {
  }
}
