/** Shared by everything. */
module Basics {
  datatype Option<+T> = None | Some(value: T)

  datatype Result<+T, +E> = Ok(value: T) | Err(error: E)

  /** The largest unsigned 64-bit number. */
  const U64_MAX: nat := 0xFFFF_FFFF_FFFF_FFFF
}
