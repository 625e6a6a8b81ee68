/** The absent/present values of the liability record (Python's `None`). */
module Wrappers {

  datatype Option<+T> = None | Some(value: T)
}
