/** Vocabulary shared by the feedbacks and the QEMU executors. */
module Common {

  /** The outcome of one execution of the target. */
  datatype ExitKind = Ok | Crash | Oom | Timeout

  /** Rust's `Result`: an engine error is a value, never a panic. */
  datatype Result<+T, +E> = Success(value: T) | Failure(error: E)

  /** Rust's `Option`. */
  datatype Option<+T> = None | Some(value: T)

  /** An error raised by code outside the modelled core (the inner executor,
      shared memory setup, fork). Only its identity matters here. */
  datatype EngineError = EngineError(reason: string)

  const U64_LIMIT: int := 0x1_0000_0000_0000_0000

  /** Rust's `u64`. */
  type U64 = x: int | 0 <= x < U64_LIMIT

  /** A fuzzing input, as raw bytes. */
  type Input = seq<bv8>
}
