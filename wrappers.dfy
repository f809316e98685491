/** Python's `None`-or-value, used wherever the assistant reads an optional field. */
module Wrappers {

  datatype Option<T> = None | Some(value: T)
}
