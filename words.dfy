/** Fixed-width unsigned integers of the sensor's register interface, and Option. */
module Words {

  /** An 8-bit register value (`u8`). */
  type U8 = x: int | 0 <= x < 0x100

  /** A 16-bit register address or half-word (`u16`). */
  type U16 = x: int | 0 <= x < 0x1_0000

  /** A 32-bit word (`u32`), the widest value a register entry can carry. */
  type U32 = x: int | 0 <= x < 0x1_0000_0000

  datatype Option<+T> = None | Some(value: T)
}
