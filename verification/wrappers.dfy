/** The optional-value wrapper used for Go's nil-able slices. */
module Wrappers {

  /** `None` stands for a nil slice, `Some(v)` for a non-nil one. */
  datatype Option<+T> = None | Some(value: T)
}
