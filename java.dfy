/** Java-level vocabulary shared by the model: 32-bit `int`, nullable
    values of value types, and a thrown `RuntimeException`. */
module Java {

  /** Java's `int`. Only compared, never added, so no wrap-around arises. */
  newtype int32 = x: int | -0x8000_0000 <= x < 0x8000_0000

  /** `Integer.MAX_VALUE`. */
  const INTEGER_MAX_VALUE: int32 := 0x7FFF_FFFF

  /** A value of a value type that may be `null` in the source. */
  datatype Option<+T> = None | Some(value: T)

  /** The result of a call that either returns or throws a `RuntimeException`. */
  datatype Outcome<+T, +E> = Ok(value: T) | Thrown(error: E)
}
