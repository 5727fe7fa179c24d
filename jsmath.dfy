/**
 * The JavaScript number operations the application relies on, on exact
 * integers and reals: `Math.round`, `Math.ceil`, `Math.abs` and the
 * truncating remainder `%`.
 */
module JsMath {

  /** `Math.round`: the nearest integer, halves rounded up. */
  function Round(x: real): (n: int)
    ensures x - 0.5 < n as real <= x + 0.5
  {
    (x + 0.5).Floor
  }

  /** `Math.ceil`: the least integer not below `x`. */
  function Ceil(x: real): (n: int)
    ensures x <= n as real < x + 1.0
  {
    -((-x).Floor)
  }

  /** `Math.abs` on integers. */
  function Abs(x: int): (r: nat)
    ensures r == x || r == -x
  {
    if x < 0 then -x else x
  }

  /** `a % n` for a positive divisor: the sign follows the dividend. */
  function JsRem(a: int, n: int): (r: int)
    requires 0 < n
    ensures -n < r < n
    ensures 0 <= a ==> r == a % n
    ensures a < 0 ==> r <= 0 && r == -((-a) % n)
  {
    if 0 <= a then a % n else -((-a) % n)
  }
}
