/** The optional value used across the model. */
module Wrappers {

  /** Some value, or none (a missing cell, an unreadable asset, an index out of range). */
  datatype Option<+T> = None | Some(value: T)
}
