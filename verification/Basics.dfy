/** Definitions that several modules share. */
module Basics {

  datatype Option<+T> = None | Some(value: T)

  datatype Side = Buy | Sell

  function Min(a: int, b: int): int {
    if a < b then a else b
  }

  function Max(a: int, b: int): int {
    if a > b then a else b
  }
}
