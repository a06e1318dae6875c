/**
 * Construction of the picker base: both injected providers are required,
 * the adapter being checked first, and a constructed picker starts from the
 * default settings.
 */
module Picker {
  import opened Wrappers
  import opened DateTimeAdapter
  import opened Settings
  import opened Formats

  /** The two construction errors, one per missing provider. */
  datatype ProviderError = NoDateTimeAdapter | NoDateTimeFormats

  datatype Picker<!T, F> = Picker(adapter: Adapter<T>, formats: FormatCatalog<F>, settings: PickerSettings)

  /** The constructor: a missing (`None`) provider is a thrown error. */
  function Create<T, F>(adapter: Option<Adapter<T>>, formats: Option<FormatCatalog<F>>): (r: Result<Picker<T, F>, ProviderError>)
    ensures r.Success? <==> adapter.Some? && formats.Some?
    ensures adapter.None? ==> r.Failure? && r.error == NoDateTimeAdapter
    ensures adapter.Some? && formats.None? ==> r.Failure? && r.error == NoDateTimeFormats
    ensures r.Success? ==>
      && r.value.adapter == adapter.value
      && r.value.formats == formats.value
      && r.value.settings == Defaults()
  {
    if adapter.None? then
      Failure(NoDateTimeAdapter)
    else if formats.None? then
      Failure(NoDateTimeFormats)
    else
      Success(Picker(adapter.value, formats.value, Defaults()))
  }

  /** A constructed picker satisfies the `firstDayOfWeek` setter's invariant from the start. */
  lemma CreatedPickerHasValidFirstDay<T, F>(adapter: Adapter<T>, formats: FormatCatalog<F>)
    ensures Create(Some(adapter), Some(formats)).Success?
    ensures ValidFirstDayOfWeek(Create(Some(adapter), Some(formats)).value.settings.firstDayOfWeek)
  {
  }
}
