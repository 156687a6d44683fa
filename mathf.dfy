/** The `UnityEngine.Mathf` functions the market engine calls, on reals and integers. */
module Mathf {
  /** `Mathf.Clamp01`: below 0 gives 0, above 1 gives 1. */
  function Clamp01(v: real): (r: real)
    ensures 0.0 <= r <= 1.0
  {
    if v < 0.0 then 0.0 else if v > 1.0 then 1.0 else v
  }

  /** `Mathf.RoundToInt`: to the nearest integer, ties to the even one. */
  function RoundToInt(v: real): (r: int)
    ensures v - 0.5 <= r as real <= v + 0.5
  {
    var f := v.Floor;
    var d := v - f as real;
    if d < 0.5 then f
    else if d > 0.5 then f + 1
    else if f % 2 == 0 then f else f + 1
  }

  /** `Mathf.Clamp(int, min, max)`: raise to `min`, otherwise lower to `max`; `min` wins when
      the bounds cross. */
  function ClampInt(value: int, min: int, max: int): (r: int)
    ensures min <= max ==> min <= r <= max
    ensures r >= min || r == max
  {
    if value < min then min else if value > max then max else value
  }

  /** `Clamp01` keeps the order, and saturates outside [0, 1]. */
  lemma {:induction false} ClampMonotone(p: real, q: real)
    requires p <= q
    ensures Clamp01(p) <= Clamp01(q)
    ensures p <= 0.0 ==> Clamp01(p) == 0.0
    ensures p >= 1.0 ==> Clamp01(p) == 1.0
  {
  }
}
