/**
  Fixed-width unsigned integers of the AVR target and the wrap-around that C's
  unsigned arithmetic performs on them.

  On this target `int` is 16 bits wide, so a uint16_t operand is promoted to a
  16-bit `unsigned int`: products and sums of two uint16_t values wrap at 2^16
  before they are stored, which is why the wave arithmetic below wraps with
  Wrap16 even where the C expression has no cast.
*/
module Uint {
  const TWO_8: int := 0x100
  const TWO_16: int := 0x1_0000
  const TWO_32: int := 0x1_0000_0000
  const TWO_64: int := 0x1_0000_0000_0000_0000

  newtype u8 = x: int | 0 <= x < 0x100
  newtype u16 = x: int | 0 <= x < 0x1_0000
  newtype u32 = x: int | 0 <= x < 0x1_0000_0000
  newtype u64 = x: int | 0 <= x < 0x1_0000_0000_0000_0000

  /** Truncation of an integer to the given width (C's conversion to an unsigned type). */
  function Wrap8(x: int): u8 { (x % TWO_8) as u8 }
  function Wrap16(x: int): u16 { (x % TWO_16) as u16 }
  function Wrap32(x: int): u32 { (x % TWO_32) as u32 }
}
