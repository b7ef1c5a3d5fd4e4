/** Optional values (Go's nil-able pointers) and the outcome of a Go call that may panic. */
module Wrappers {

  /** A Go pointer that may be nil: `None` stands for nil. */
  datatype Option<+T> = None | Some(value: T)

  /** The result of a Go function that either returns a value or panics at run time. */
  datatype Outcome<+T> = Returns(value: T) | Panics(reason: string)
}
