/** Values shared by both tiers: the task record, 64-bit integers and the
    wrappers that stand for Go's `(value, error)` and `error` returns. */
module Shared {

  /** Go's `int` and `int64` on the 64-bit platforms the services run on. */
  type Int64 = x: int | -0x8000_0000_0000_0000 <= x < 0x8000_0000_0000_0000

  predicate InInt64(x: int) {
    -0x8000_0000_0000_0000 <= x < 0x8000_0000_0000_0000
  }

  /** A `time.Time`, kept opaque: the pipeline only copies it from the store to the caller. */
  datatype Timestamp = Timestamp(unixNanos: int)

  /** The one domain entity; `status` is false while open and true once completed. */
  datatype Task = Task(
    id: Int64,
    title: string,
    description: string,
    status: bool,
    createdAt: Timestamp)

  datatype Option<+T> = None | Some(value: T)

  /** A Go `(value, error)` pair: the value that accompanies a non-nil error is
      ignored by every caller in the pipeline, so it is not kept. */
  datatype Result<+T, +E> = Ok(value: T) | Err(error: E)

  /** A bare Go `error` return: `Pass` is nil. */
  datatype Outcome<+E> = Pass | Fail(error: E)
}
