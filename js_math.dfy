/** The `Math` functions the dashboard applies to amounts and scores, on exact reals. */
module JsMath {

  /** `Math.round(x)`: the nearest integer, a half rounded up towards +∞. */
  function Round(x: real): (r: int)
    ensures r as real - 0.5 <= x < r as real + 0.5
  {
    (x + 0.5).Floor
  }

  /** `Math.max(lo, Math.min(hi, x))`. */
  function Clamp(lo: real, hi: real, x: real): (r: real)
    requires lo <= hi
    ensures lo <= r <= hi
    ensures lo <= x <= hi ==> r == x
    ensures x < lo ==> r == lo
    ensures x > hi ==> r == hi
  {
    if x < lo then lo else if x > hi then hi else x
  }

  function Min(a: real, b: real): (r: real)
    ensures r <= a && r <= b && (r == a || r == b)
  {
    if a <= b then a else b
  }

  /**
   * `parseFloat(x.toFixed(1))`: x to one decimal place, a half rounded away from zero
   * (toFixed rounds the magnitude and keeps the sign).
   */
  function ToFixed1(x: real): (r: real)
    ensures -0.05 <= r - x <= 0.05
    ensures x >= 0.0 ==> r >= 0.0
  {
    if x < 0.0 then -(Round(-x * 10.0) as real / 10.0) else Round(x * 10.0) as real / 10.0
  }
}
