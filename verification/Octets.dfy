/** Bytes as they lie in buffers shared with clients and with the secure world, and the widths of machine integers. */
module Octets {
  type byte = x: int | 0 <= x < 256

  const U32: nat := 0x1_0000_0000
  const U64: nat := 0x1_0000_0000_0000_0000
}
