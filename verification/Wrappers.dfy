/** What several models share: an optional value and the range of a 64-bit counter. */
module Wrappers {
  datatype Option<+T> = None | Some(value: T)

  const U64_MAX: nat := 0xFFFF_FFFF_FFFF_FFFF
}
