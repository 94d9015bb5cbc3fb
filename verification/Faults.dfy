/** How a call to a store can end, and what it means that none of a stretch of calls failed. */
module Faults {

  datatype Outcome = NotApplied | AppliedThenRaised | Applied

  /** None of the calls numbered from `from` up to `to` fails. */
  ghost predicate Clean(outcomes: nat -> Outcome, from: nat, to: nat) {
    from <= to && forall k: nat :: from <= k < to ==> outcomes(k).Applied?
  }
}
