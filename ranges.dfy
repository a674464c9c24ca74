/**
 * Inclusive index ranges [start, end] as the data-model notifications give them.
 */
module Ranges {

  /** The number of indices in [start, end]; an inverted range is empty. */
  function Width(start: int, end: int): nat
  {
    if start <= end then end - start + 1 else 0
  }

  /** Whether index `i` lies in [first, last]: the "does this change touch it" test. */
  predicate Within(i: int, first: int, last: int)
  {
    first <= i && i <= last
  }
}
