/** Option type used for values that the source may not have (an empty queue,
    a failed parse, an exception caught by a handler). */
module Wrappers {
  datatype Option<+T> = None | Some(value: T)
}
