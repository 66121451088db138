/** Value types shared by the models of the governance, wasm and vmbridge code. */
module Base {

  /** Go's `byte`. */
  type Byte = b: int | 0 <= b < 0x100

  /** The largest value of Go's `uint64`. */
  const MaxUint64: int := 0xFFFF_FFFF_FFFF_FFFF

  /** Go's `uint64`. */
  type Uint64 = x: int | 0 <= x <= MaxUint64

  /** A value that may be absent (Go's nil pointer or interface, a missing map entry). */
  datatype Option<+T> = None | Some(value: T)

  /** A value or the error that replaced it (Go's `(T, error)` pair). */
  datatype Result<+T, +E> = Ok(value: T) | Err(error: E)
}
