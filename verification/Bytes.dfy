/** Bytes, and the sizes Go's integers give them. */
module Bytes {
  type byte = b: int | 0 <= b < 256
  type bytes = seq<byte>

  const U64: int := 0x1_0000_0000_0000_0000
  const MAX_INT: int := 0x7fff_ffff_ffff_ffff   // the largest Go int, so the longest slice
}
