/** Small value types shared by the model: an optional value and Go's `error`. */
module Wrappers {

  datatype Option<+T> = None | Some(value: T)

  /** Go's built-in `error`: either nil or a value carrying its `Error()` message. */
  datatype Error = Nil | Err(message: string)
}
