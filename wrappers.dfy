/** Small shared helpers: the optional value that stands for JavaScript's
    `null`, and the two numeric helpers `Math.min` / `Math.max`. */
module Wrappers {

  /** `None` plays the role of `null` (or `undefined`) in the source. */
  datatype Option<+T> = None | Some(value: T)

  function MinReal(a: real, b: real): real
  {
    if a <= b then a else b
  }

  function MaxInt(a: int, b: int): int
  {
    if a >= b then a else b
  }
}
