/** Shared wrappers and scalar types. */
module Basics {

  datatype Option<+T> = None | Some(value: T)

  datatype Result<+T, +E> = Ok(value: T) | Err(error: E)

  newtype Byte = x: int | 0 <= x < 256

  const U64_LIMIT: nat := 0x1_0000_0000_0000_0000

  /** The UTF-8 bytes of a Rust string: its length always fits an unsigned 64-bit word. */
  type Text = s: seq<Byte> | |s| < U64_LIMIT witness []
}
