/** Option for JavaScript's `null`/`undefined`, and Outcome for a promise that either
    resolves to a value or rejects. */
module Wrappers {

  datatype Option<+T> = None | Some(value: T)

  /** How an awaited call ends: it resolves to a value, or it rejects (throws). */
  datatype Outcome<+T> = Returned(value: T) | Rejected
}
