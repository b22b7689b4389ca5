/** The optional value used for JavaScript's `undefined`: a property that is absent,
    a body that could not be parsed. */
module Wrappers {
  datatype Option<+T> = None | Some(value: T)
}
