/** Optional values, the model's rendering of Go's `nil`-able returns. */
module Wrappers {

  /** A value that may be absent: `None` stands for Go's `nil` error or missing result. */
  datatype Option<+T> = None | Some(value: T)
}
