/**
 * `getValidDate`: the single gate through which externally sourced values
 * reach the picker. A candidate survives only if the adapter recognises it as
 * one of its date-time instances and considers it valid.
 */
module Normalize {
  import opened Wrappers
  import opened DateTimeAdapter
  import opened Selectability

  /** The candidate itself, or `None` (the source's `null`). */
  function GetValidDate<T>(adapter: Adapter<T>, obj: T): (r: Option<T>)
    ensures r.Some? <==> adapter.isDateInstance(obj) && adapter.isValid(obj)
    ensures r.Some? ==> r.value == obj
  {
    if adapter.isDateInstance(obj) && adapter.isValid(obj) then Some(obj) else None
  }

  /** Normalising a value that already survived normalisation changes nothing. */
  lemma GetValidDateIdempotent<T>(adapter: Adapter<T>, obj: T)
    ensures GetValidDate(adapter, obj).Some? ==>
      GetValidDate(adapter, GetValidDate(adapter, obj).value) == GetValidDate(adapter, obj)
  {
  }

  /**
   * With no filter and no bounds, a normalised candidate is selectable exactly
   * when the adapter recognises it and considers it valid.
   */
  lemma UnconstrainedSelectableIffValid<T>(adapter: Adapter<T>, obj: T)
    ensures DateTimeChecker(adapter.compare, Unconstrained(), GetValidDate(adapter, obj))
            <==> adapter.isDateInstance(obj) && adapter.isValid(obj)
  {
  }

  /** Whatever the constraints, a candidate that normalisation rejects is never selectable. */
  lemma RejectedNeverSelectable<T>(adapter: Adapter<T>, c: Constraints<T>, obj: T)
    requires !(adapter.isDateInstance(obj) && adapter.isValid(obj))
    ensures !DateTimeChecker(adapter.compare, c, GetValidDate(adapter, obj))
  {
  }
}
