/** Option and Result, as used throughout the model. */
module Common {

  datatype Option<+T> = None | Some(value: T)

  datatype Result<+R, +E> = Success(value: R) | Failure(error: E)

  /** Kotlin's `Long`: a signed 64-bit integer. */
  type Int64 = x: int | -0x8000_0000_0000_0000 <= x < 0x8000_0000_0000_0000

  /** Kotlin's `Int`: a signed 32-bit integer. */
  type Int32 = x: int | -0x8000_0000 <= x < 0x8000_0000

  predicate IsInt64(x: int) { -0x8000_0000_0000_0000 <= x < 0x8000_0000_0000_0000 }

  predicate IsInt32(x: int) { -0x8000_0000 <= x < 0x8000_0000 }
}
