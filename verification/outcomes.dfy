/** The optional values and settled promises the notes model returns. */
module Outcomes {

  /** A value that may be absent: JavaScript's `undefined` (or `null`) is `None`. */
  datatype Option<+T> = None | Some(value: T)

  /** How a promise settles: fulfilled with a value, or rejected with a reason. */
  datatype Settled<+T, +E> = Resolved(value: T) | Rejected(reason: E)
}
