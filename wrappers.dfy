/** The optional-result type used where the source returns `T | undefined`. */
module Wrappers {

  datatype Option<+T> = None | Some(value: T)
}
