/** The optional value used for Kotlin's nullable results (`T?`). */
module Wrappers {
  datatype Option<+T> = None | Some(value: T)
}
