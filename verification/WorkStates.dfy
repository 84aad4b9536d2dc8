/** The eight states a work item can be in, shared by the sequential pool and
    the interleaved transaction model. */
module WorkStates {

  datatype WorkState =
    | Queued
    | Leased
    | CallbackWait
    | RetryWait
    | Review
    | Completed
    | Suppressed
    | Cancelled

  /** A closed item: no operation may take it out of its state again. */
  predicate Terminal(s: WorkState) {
    s.Completed? || s.Suppressed? || s.Cancelled?
  }
}
