/** Fixed-width integers, byte strings and network names shared by every
    component of the vault. */
module Primitives {
  newtype byte = x: int | 0 <= x < 0x100
  newtype u64 = x: int | 0 <= x < 0x1_0000_0000_0000_0000

  type Bytes = seq<byte>

  /** A 256-bit network name (`XorName`). */
  type XorName = s: Bytes | |s| == 32 witness seq(32, _ => 0)
}
