/** Types that every module shares. */
module Basics {

  datatype Option<+T> = None | Some(value: T)

  datatype Result<+T, +E> = Ok(value: T) | Err(error: E)

  /** Go's `uint64`. Arithmetic on it wraps, so every sum is written with `Succ`. */
  const UINT64_LIMIT: int := 0x1_0000_0000_0000_0000

  type uint64 = x: int | 0 <= x < UINT64_LIMIT witness 0

  /** `sequence + 1` in Go. */
  function Succ(n: uint64): uint64 {
    (n + 1) % UINT64_LIMIT
  }

  type byte = x: int | 0 <= x < 256 witness 0

  /** A Go string or byte slice, seen as its bytes. */
  type Bytes = seq<byte>
}
