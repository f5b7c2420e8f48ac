/** The absence signal used by lookups: a value or nothing. */
module Wrappers {
  datatype Option<+T> = None | Some(value: T)
}
