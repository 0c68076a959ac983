/** Machine widths shared by every component of the Apple-1 I/O model. */
module Bytes {

  /** An 8-bit register, port or memory cell (`uint8_t`). */
  type byte = bv8

  /** Unsigned integer widths of the C++ source, as bounded integers. */
  type u8 = x: int | 0 <= x < 0x100
  type u16 = x: int | 0 <= x < 0x1_0000
  type u32 = x: int | 0 <= x < 0x1_0000_0000

  /** A value that may be absent (a file that could not be opened). */
  datatype Option<T> = None | Some(value: T)
}
