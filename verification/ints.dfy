/** Small integer helpers shared by the other modules. */
module Ints {

  function Min(a: int, b: int): int {
    if a <= b then a else b
  }
}
