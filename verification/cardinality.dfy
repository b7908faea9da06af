/** The `Acts` cardinality predicates that `verify` applies to an
    observed call count. */
module Cardinalities {

  import opened Wrappers

  datatype Cardinality = Never | Once | Times(n: int) | AtLeast(n: int) | AtMost(n: int)

  /** Whether the predicate returns normally on `times`; it raises exactly
      when this is false. */
  predicate Satisfied(c: Cardinality, times: int) {
    match c
    case Never => times == 0
    case Once => times == 1
    case Times(n) => times == n
    case AtLeast(n) => n <= times
    case AtMost(n) => times <= n
  }

  /** An independent reading of each cardinality as an interval of
      accepted counts; `None` is an open end. */
  function Bounds(c: Cardinality): (Option<int>, Option<int>)
  {
    match c
    case Never => (Some(0), Some(0))
    case Once => (Some(1), Some(1))
    case Times(n) => (Some(n), Some(n))
    case AtLeast(n) => (Some(n), None)
    case AtMost(n) => (None, Some(n))
  }

  predicate Within(b: (Option<int>, Option<int>), t: int) {
    (b.0.Some? ==> b.0.value <= t) && (b.1.Some? ==> t <= b.1.value)
  }

  lemma SatisfiedIffWithin(c: Cardinality, t: int)
    ensures Satisfied(c, t) <==> Within(Bounds(c), t)
  {
  }
}
