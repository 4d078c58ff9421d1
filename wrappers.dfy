/** The optional value used for JavaScript's `undefined`-or-value slots. */
module Wrappers {
  datatype Option<T> = None | Some(value: T)
}
