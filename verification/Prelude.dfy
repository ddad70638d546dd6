/** What the other modules share. */
module Prelude {
  /** A C pointer or result that may be null. */
  datatype Option<+T> = None | Some(value: T)

  /** How a kernel function ends: it returns, or it calls panic and the machine stops. */
  datatype Outcome = Done | Panicked
}
