/** Bytes and durations, shared by every module that counts them. */
module Scalars {
  type Byte = x: int | 0 <= x < 256

  /** A second in nanoseconds. */
  const SECOND: int := 1_000_000_000
}
