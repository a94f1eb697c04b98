/** Python's `Optional[T]`: a value that may be `None`. */
module Optionals {

  datatype Option<+T> = None | Some(value: T)
}
