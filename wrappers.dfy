/** An optional value, used for Go's `error` results (None is `nil`) and for a parse that may fail. */
module Wrappers {
  datatype Option<+T> = None | Some(value: T)
}
