/** Small value types shared by every module of the project. */
module Prelude {
  /** A Go value that may be nil. */
  datatype Option<+T> = None | Some(value: T)
}
