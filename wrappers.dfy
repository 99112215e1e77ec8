/** The "value or nothing" type used where the source returns `null`/`undefined`. */
module Wrappers {
  datatype Option<+T> = None | Some(value: T)
}
