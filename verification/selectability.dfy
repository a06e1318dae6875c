/**
 * The picker's selectability check (`dateTimeChecker`): a date-time is
 * selectable when it is present, the optional filter accepts it, and it lies
 * within the optional inclusive bounds, judged by the adapter's `compare`.
 */
module Selectability {
  import opened Wrappers
  import opened DateTimeAdapter

  /**
   * The configuration the check re-reads on every call: the optional filter
   * and the optional minimum and maximum. Nothing forces `min <= max`.
   */
  datatype Constraints<!T> = Constraints(
    filter: Option<T -> bool>,
    min: Option<T>,
    max: Option<T>
  )

  /** No filter and no bounds. */
  function Unconstrained<T>(): Constraints<T> {
    Constraints(None, None, None)
  }

  // ---------------------------------------------------------------------
  // Declarative reading: one predicate per conjunct of the check.
  // ---------------------------------------------------------------------

  /** An absent filter admits everything. */
  predicate Admits<T>(filter: Option<T -> bool>, d: T) {
    filter.None? || filter.value(d)
  }

  /** An absent minimum admits everything; a present one is inclusive. */
  predicate NotBelow<T>(compare: (T, T) -> int, min: Option<T>, d: T) {
    min.None? || compare(d, min.value) >= 0
  }

  /** An absent maximum admits everything; a present one is inclusive. */
  predicate NotAbove<T>(compare: (T, T) -> int, max: Option<T>, d: T) {
    max.None? || compare(d, max.value) <= 0
  }

  /** All three constraints accept the present value `d`. */
  predicate Accepted<T>(compare: (T, T) -> int, c: Constraints<T>, d: T) {
    Admits(c.filter, d) && NotBelow(compare, c.min, d) && NotAbove(compare, c.max, d)
  }

  // ---------------------------------------------------------------------
  // Operational reading: the short-circuit `&&` chain, one guard per
  // configured constraint, each guard costing one call to a collaborator.
  // ---------------------------------------------------------------------

  /** A configured constraint; evaluating it calls the filter or `compare` once. */
  datatype Guard<!T> = FilterGuard(accepts: T -> bool) | MinGuard(min: T) | MaxGuard(max: T)

  predicate Passes<T>(compare: (T, T) -> int, g: Guard<T>, d: T) {
    match g
    case FilterGuard(f) => f(d)
    case MinGuard(m) => compare(d, m) >= 0
    case MaxGuard(m) => compare(d, m) <= 0
  }

  /** Position of a guard kind in the source's `&&` chain. */
  function Rank<T>(g: Guard<T>): nat {
    match g
    case FilterGuard(_) => 0
    case MinGuard(_) => 1
    case MaxGuard(_) => 2
  }

  /**
   * The guards in the order the source evaluates them: filter, minimum,
   * maximum, one per configured constraint and carrying that constraint.
   */
  function Guards<T>(c: Constraints<T>): (gs: seq<Guard<T>>)
    ensures forall i, j :: 0 <= i < j < |gs| ==> Rank(gs[i]) < Rank(gs[j])
    ensures c.filter.Some? <==> exists i :: 0 <= i < |gs| && gs[i].FilterGuard?
    ensures c.min.Some? <==> exists i :: 0 <= i < |gs| && gs[i].MinGuard?
    ensures c.max.Some? <==> exists i :: 0 <= i < |gs| && gs[i].MaxGuard?
    ensures forall i :: 0 <= i < |gs| && gs[i].FilterGuard? ==> c.filter == Some(gs[i].accepts)
    ensures forall i :: 0 <= i < |gs| && gs[i].MinGuard? ==> c.min == Some(gs[i].min)
    ensures forall i :: 0 <= i < |gs| && gs[i].MaxGuard? ==> c.max == Some(gs[i].max)
  {
    var f := if c.filter.Some? then [FilterGuard(c.filter.value)] else [];
    var lo := if c.min.Some? then [MinGuard(c.min.value)] else [];
    var hi := if c.max.Some? then [MaxGuard(c.max.value)] else [];
    var gs := f + lo + hi;
    assert c.filter.Some? ==> gs[0].FilterGuard?;
    assert c.min.Some? ==> gs[|f|].MinGuard?;
    assert c.max.Some? ==> gs[|f| + |lo|].MaxGuard?;
    gs
  }

  /**
   * The verdict, and how many collaborator calls (filter or `compare`) were
   * made before the verdict was known.
   */
  datatype Evaluation = Evaluation(selectable: bool, consulted: nat)

  /**
   * Short-circuit evaluation of `guards` on `d`: stops at the first guard that
   * fails, having consulted exactly the guards up to and including it.
   */
  function EvalGuards<T>(compare: (T, T) -> int, guards: seq<Guard<T>>, d: T): (r: Evaluation)
    ensures r.consulted <= |guards|
    ensures r.selectable <==> forall i :: 0 <= i < |guards| ==> Passes(compare, guards[i], d)
    ensures r.selectable ==> r.consulted == |guards|
    ensures !r.selectable ==>
      && 0 < r.consulted
      && !Passes(compare, guards[r.consulted - 1], d)
      && forall i :: 0 <= i < r.consulted - 1 ==> Passes(compare, guards[i], d)
    decreases |guards|
  {
    if |guards| == 0 then
      Evaluation(true, 0)
    else if !Passes(compare, guards[0], d) then
      Evaluation(false, 1)
    else
      var rest := EvalGuards(compare, guards[1..], d);
      Evaluation(rest.selectable, rest.consulted + 1)
  }

  /**
   * The whole check: an absent value is rejected before any collaborator is
   * consulted; otherwise the configured guards run in order.
   */
  function Evaluate<T>(compare: (T, T) -> int, c: Constraints<T>, d: Option<T>): (r: Evaluation)
    ensures r.selectable <==> d.Some? && Accepted(compare, c, d.value)
    ensures d.None? ==> r.consulted == 0
    ensures r.consulted <= |Guards(c)|
  {
    if d.None? then
      Evaluation(false, 0)
    else
      var r := EvalGuards(compare, Guards(c), d.value);
      assert r.selectable <==> Accepted(compare, c, d.value) by {
        GuardsMeanAccepted(compare, c, d.value);
      }
      r
  }

  /** `dateTimeChecker(dateTime)`: whether `d` may be selected under `c`. */
  function DateTimeChecker<T>(compare: (T, T) -> int, c: Constraints<T>, d: Option<T>): (r: bool)
    ensures r <==> && d.Some?
                   && (c.filter.None? || c.filter.value(d.value))
                   && (c.min.None? || compare(d.value, c.min.value) >= 0)
                   && (c.max.None? || compare(d.value, c.max.value) <= 0)
  {
    Evaluate(compare, c, d).selectable
  }

  /** All guards pass exactly when all three declarative conjuncts hold. */
  lemma GuardsMeanAccepted<T>(compare: (T, T) -> int, c: Constraints<T>, d: T)
    ensures (forall i :: 0 <= i < |Guards(c)| ==> Passes(compare, Guards(c)[i], d))
            <==> Accepted(compare, c, d)
  {
    var f := if c.filter.Some? then [FilterGuard(c.filter.value)] else [];
    var lo := if c.min.Some? then [MinGuard(c.min.value)] else [];
    var hi := if c.max.Some? then [MaxGuard(c.max.value)] else [];
    assert Guards(c) == f + lo + hi;
    if forall i :: 0 <= i < |Guards(c)| ==> Passes(compare, Guards(c)[i], d) {
      if c.filter.Some? { assert Guards(c)[0] == FilterGuard(c.filter.value); }
      if c.min.Some? { assert Guards(c)[|f|] == MinGuard(c.min.value); }
      if c.max.Some? { assert Guards(c)[|f| + |lo|] == MaxGuard(c.max.value); }
    }
  }

  // ---------------------------------------------------------------------
  // Properties of the check.
  // ---------------------------------------------------------------------

  /** An absent value is never selectable, and neither the filter nor `compare` is called for it. */
  lemma AbsentNeverSelectable<T>(compare: (T, T) -> int, c: Constraints<T>)
    ensures !DateTimeChecker(compare, c, None)
    ensures Evaluate(compare, c, None).consulted == 0
  {
  }

  /** With no filter and no bounds, every present value is selectable. */
  lemma UnconstrainedSelectsEverything<T>(compare: (T, T) -> int, d: T)
    ensures DateTimeChecker(compare, Unconstrained(), Some(d))
  {
  }

  /** A filter that rejects `d` decides the answer, whatever the bounds, and `compare` is never called. */
  lemma FilterRejectionIsFinal<T>(compare: (T, T) -> int, c: Constraints<T>, d: T)
    requires c.filter.Some? && !c.filter.value(d)
    ensures !DateTimeChecker(compare, c, Some(d))
    ensures Evaluate(compare, c, Some(d)).consulted == 1
  {
  }

  /** A value strictly below the minimum is rejected, whatever the filter and maximum. */
  lemma BelowMinRejected<T>(compare: (T, T) -> int, c: Constraints<T>, d: T)
    requires c.min.Some? && compare(d, c.min.value) < 0
    ensures !DateTimeChecker(compare, c, Some(d))
  {
  }

  /** A value strictly above the maximum is rejected, whatever the filter and minimum. */
  lemma AboveMaxRejected<T>(compare: (T, T) -> int, c: Constraints<T>, d: T)
    requires c.max.Some? && compare(d, c.max.value) > 0
    ensures !DateTimeChecker(compare, c, Some(d))
  {
  }

  /**
   * Bounds are inclusive: a value equal to the minimum or the maximum is
   * decided by the other constraints alone.
   */
  lemma BoundsAreInclusive<T>(compare: (T, T) -> int, c: Constraints<T>, d: T)
    ensures c.min.Some? && compare(d, c.min.value) == 0 ==>
      (DateTimeChecker(compare, c, Some(d)) <==> DateTimeChecker(compare, c.(min := None), Some(d)))
    ensures c.max.Some? && compare(d, c.max.value) == 0 ==>
      (DateTimeChecker(compare, c, Some(d)) <==> DateTimeChecker(compare, c.(max := None), Some(d)))
  {
  }

  /**
   * Under a total preorder each bound is itself selectable exactly when the
   * filter accepts it and the other bound admits it.
   */
  lemma MinIsSelectable<T(!new)>(compare: (T, T) -> int, c: Constraints<T>, m: T)
    requires TotalPreorder(compare)
    requires c.min == Some(m)
    ensures DateTimeChecker(compare, c, Some(m)) <==> Admits(c.filter, m) && NotAbove(compare, c.max, m)
  {
  }

  lemma MaxIsSelectable<T(!new)>(compare: (T, T) -> int, c: Constraints<T>, m: T)
    requires TotalPreorder(compare)
    requires c.max == Some(m)
    ensures DateTimeChecker(compare, c, Some(m)) <==> Admits(c.filter, m) && NotBelow(compare, c.min, m)
  {
  }

  /**
   * The check does not order the bounds: when the minimum lies after the
   * maximum, no value at all is selectable.
   */
  lemma InvertedBoundsSelectNothing<T(!new)>(compare: (T, T) -> int, c: Constraints<T>, d: Option<T>)
    requires TotalPreorder(compare)
    requires c.min.Some? && c.max.Some? && compare(c.min.value, c.max.value) > 0
    ensures !DateTimeChecker(compare, c, d)
  {
  }

  // ---------------------------------------------------------------------
  // Monotonicity: widening the constraints never loses a selectable value.
  // ---------------------------------------------------------------------

  /** `wide` admits through its filter everything `narrow` admits. */
  ghost predicate FilterWidens<T(!new)>(narrow: Option<T -> bool>, wide: Option<T -> bool>) {
    wide.None? || (narrow.Some? && forall x :: narrow.value(x) ==> wide.value(x))
  }

  /** `wide` is absent, or no later than `narrow`. */
  predicate MinWidens<T>(compare: (T, T) -> int, narrow: Option<T>, wide: Option<T>) {
    wide.None? || (narrow.Some? && compare(wide.value, narrow.value) <= 0)
  }

  /** `wide` is absent, or no earlier than `narrow`. */
  predicate MaxWidens<T>(compare: (T, T) -> int, narrow: Option<T>, wide: Option<T>) {
    wide.None? || (narrow.Some? && compare(narrow.value, wide.value) <= 0)
  }

  ghost predicate Widens<T(!new)>(compare: (T, T) -> int, narrow: Constraints<T>, wide: Constraints<T>) {
    && FilterWidens(narrow.filter, wide.filter)
    && MinWidens(compare, narrow.min, wide.min)
    && MaxWidens(compare, narrow.max, wide.max)
  }

  /** Lowering or removing the minimum keeps a selectable value selectable. */
  lemma LowerMinKeepsSelectable<T(!new)>(compare: (T, T) -> int, c: Constraints<T>, min': Option<T>, d: T)
    requires TotalPreorder(compare)
    requires MinWidens(compare, c.min, min')
    requires DateTimeChecker(compare, c, Some(d))
    ensures DateTimeChecker(compare, c.(min := min'), Some(d))
  {
  }

  /** Raising or removing the maximum keeps a selectable value selectable. */
  lemma RaiseMaxKeepsSelectable<T(!new)>(compare: (T, T) -> int, c: Constraints<T>, max': Option<T>, d: T)
    requires TotalPreorder(compare)
    requires MaxWidens(compare, c.max, max')
    requires DateTimeChecker(compare, c, Some(d))
    ensures DateTimeChecker(compare, c.(max := max'), Some(d))
  {
  }

  /** Removing the filter keeps a selectable value selectable. */
  lemma RemoveFilterKeepsSelectable<T>(compare: (T, T) -> int, c: Constraints<T>, d: T)
    requires DateTimeChecker(compare, c, Some(d))
    ensures DateTimeChecker(compare, c.(filter := None), Some(d))
  {
  }

  /** Any widening of all three constraints at once keeps a selectable value selectable. */
  lemma WideningKeepsSelectable<T(!new)>(compare: (T, T) -> int, narrow: Constraints<T>, wide: Constraints<T>, d: T)
    requires TotalPreorder(compare)
    requires Widens(compare, narrow, wide)
    requires DateTimeChecker(compare, narrow, Some(d))
    ensures DateTimeChecker(compare, wide, Some(d))
  {
    LowerMinKeepsSelectable(compare, narrow, wide.min, d);
    var c1 := narrow.(min := wide.min);
    RaiseMaxKeepsSelectable(compare, c1, wide.max, d);
  }
}
