/** Fixed-width unsigned integers used by the kernel's hardware interfaces. */
module MachineTypes {

  /** An 8-bit unsigned value (Rust `u8`). */
  newtype uint8 = x: int | 0 <= x < 0x100

  /** A 16-bit unsigned value (Rust `u16`), used for I/O port addresses. */
  newtype uint16 = x: int | 0 <= x < 0x1_0000
}
