/**
 * The date-time adapter capability the picker is parameterised by. Its
 * implementation lives outside the modelled file, so its three operations are
 * plain function values; properties of `compare` are assumed explicitly where
 * a lemma needs them.
 */
module DateTimeAdapter {

  /**
   * `compare(a, b)` is negative when `a` is earlier, zero when equal and
   * positive when later. `isDateInstance` recognises the adapter's own
   * representation among arbitrary candidate values; `isValid` rejects
   * sentinel "invalid date" instances.
   */
  datatype Adapter<!T> = Adapter(
    compare: (T, T) -> int,
    isDateInstance: T -> bool,
    isValid: T -> bool
  )

  /** Every value compares equal to itself. */
  ghost predicate Reflexive<T(!new)>(compare: (T, T) -> int) {
    forall a :: compare(a, a) == 0
  }

  /** Swapping the arguments swaps the sign of the result. */
  ghost predicate SignAntisymmetric<T(!new)>(compare: (T, T) -> int) {
    forall a, b :: compare(a, b) < 0 <==> compare(b, a) > 0
  }

  /** "Not later than" chains. */
  ghost predicate Transitive<T(!new)>(compare: (T, T) -> int) {
    forall a, b, c :: compare(a, b) <= 0 && compare(b, c) <= 0 ==> compare(a, c) <= 0
  }

  /**
   * The comparison contract the picker relies on: a total preorder. Totality
   * is built in, since `compare` answers for every pair.
   */
  ghost predicate TotalPreorder<T(!new)>(compare: (T, T) -> int) {
    && Reflexive(compare)
    && SignAntisymmetric(compare)
    && Transitive(compare)
  }
}
