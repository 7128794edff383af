/** The Option type used for JavaScript's `undefined`-or-value. */
module Wrappers {
  datatype Option<+T> = None | Some(value: T)
}
