/** What several modules share. */
module Basics {
  datatype Option<+T> = None | Some(value: T)

  function Max(a: int, b: int): int {
    if a > b then a else b
  }

  function Min(a: int, b: int): int {
    if a < b then a else b
  }

  /** The integers of 32 bits. */
  predicate Fits32(x: int) {
    -0x8000_0000 <= x < 0x8000_0000
  }
}
