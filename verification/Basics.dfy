/** Values shared by every part of the model: bytes, options and 64-bit durations. */
module Basics {
  type byte = b: int | 0 <= b < 256

  datatype Option<+T> = None | Some(value: T)

  const READ_BUFFER_SIZE: nat := 4096
  const NANOS_PER_MILLI: int := 1_000_000
  const TWO_64: int := 0x1_0000_0000_0000_0000
  const MAX_INT64: int := 0x7FFF_FFFF_FFFF_FFFF

  /** Two's-complement reduction to a signed 64-bit value. */
  function Wrap64(x: int): (r: int)
    ensures -MAX_INT64 - 1 <= r <= MAX_INT64
    ensures (r - x) % TWO_64 == 0
  {
    var m := x % TWO_64;
    if m <= MAX_INT64 then m else m - TWO_64
  }

  /** The value `setTimeout` stores: zero when disabled, otherwise the wrapped nanosecond product. */
  function TimeoutFor(ms: int): int {
    if ms <= 0 then 0 else Wrap64(ms * NANOS_PER_MILLI)
  }
}
