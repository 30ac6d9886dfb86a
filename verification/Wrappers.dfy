/** The option type, the bytes that storage holds, and 64-bit addition. */
module Wrappers {

  datatype Option<+T> = None | Some(value: T)

  newtype byte = x: int | 0 <= x < 256

  type Bytes = seq<byte>

  const MAX_INT64 := 0x7fff_ffff_ffff_ffff

  /** Addition of signed 64-bit integers, which wraps. */
  function AddInt64(a: int, b: int): int {
    (a + b + MAX_INT64 + 1) % (2 * (MAX_INT64 + 1)) - MAX_INT64 - 1
  }
}
