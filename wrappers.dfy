/** Option type for the values the source represents with `null`. */
module Wrappers {
  datatype Option<+T> = None | Some(value: T)
}
