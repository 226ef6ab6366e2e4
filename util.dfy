/** Small helpers shared by the storefront modules. */
module Util {

  datatype Option<+T> = None | Some(value: T)

  /** JavaScript's `Math.max` on two numbers. */
  function Max(a: int, b: int): (m: int)
    ensures m >= a && m >= b
    ensures m == a || m == b
  {
    if a >= b then a else b
  }

  /** JavaScript's `Math.min` on two numbers. */
  function Min(a: int, b: int): (m: int)
    ensures m <= a && m <= b
    ensures m == a || m == b
  {
    if a <= b then a else b
  }

  /** The "−" quantity stepper of the cart page and of the product page,
      `Math.max(1, q - 1)`: one less, but never below one. */
  function StepDown(quantity: int): (q: int)
    ensures q >= 1
    ensures quantity > 1 ==> q == quantity - 1
    ensures quantity <= 1 ==> q == 1
  {
    Max(1, quantity - 1)
  }

  /** No value occurs twice in `s`. */
  predicate NoDuplicates<T(==)>(s: seq<T>)
  {
    forall i, j :: 0 <= i < j < |s| ==> s[i] != s[j]
  }
}
