/** Small value types shared by the whole model. */
module Basics {

  /** A value that may be absent: an omitted request field, a failed parse, no matching user. */
  datatype Option<T> = None | Some(value: T)
}
