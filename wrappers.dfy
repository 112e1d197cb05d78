/** Helper types shared by the models: an optional value and the unsigned
    machine integer widths the modelled code works with. */
module Wrappers {

  /** A value that may be absent: a C++ null pointer or a Rust `Option`. */
  datatype Option<+T> = None | Some(value: T)

  type u8 = x: int | 0 <= x < 0x100
  type u16 = x: int | 0 <= x < 0x1_0000
  type u32 = x: int | 0 <= x < 0x1_0000_0000
  type u64 = x: int | 0 <= x < 0x1_0000_0000_0000_0000
}
