/** Python's `Optional[T]`: either `None` or a value. */
module Wrappers {

  datatype Option<+T> = None | Some(value: T)

}
