/** Small helpers shared by both simulations: an optional value and the
    two-argument `Math.max` / `Math.min` of JavaScript, on integers and on reals. */
module Util {

  datatype Option<T> = None | Some(value: T)

  /** `Math.max(a, b)` on integers. */
  function Max(a: int, b: int): (r: int)
    ensures r >= a && r >= b
    ensures r == a || r == b
  {
    if a >= b then a else b
  }

  /** `Math.min(a, b)` on integers. */
  function Min(a: int, b: int): (r: int)
    ensures r <= a && r <= b
    ensures r == a || r == b
  {
    if a <= b then a else b
  }

  // Math.max and Math.min come twice, once per numeric type: without traits
  // Dafny has no way to write one function for both int and real.

  /** `Math.max(a, b)` on reals. */
  function RMax(a: real, b: real): (r: real)
    ensures r >= a && r >= b
    ensures r == a || r == b
  {
    if a >= b then a else b
  }

  /** `Math.min(a, b)` on reals. */
  function RMin(a: real, b: real): (r: real)
    ensures r <= a && r <= b
    ensures r == a || r == b
  {
    if a <= b then a else b
  }
}
