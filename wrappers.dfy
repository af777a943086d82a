/** The optional value used for nullable columns, files that may be absent and calls that may raise. */
module Wrappers {

  datatype Option<+T> = None | Some(value: T)

  function Min(a: int, b: int): int {
    if a <= b then a else b
  }
}
