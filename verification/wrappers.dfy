/** The optional-value type used where the source has a value or `None`. */
module Wrappers {

  datatype Option<+T> = None | Some(value: T)
}
