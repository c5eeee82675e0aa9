/**
  Keeping the player's square on the canvas: each coordinate is clamped so
  that the square of side `size` centred on it stays within [0, bound].
 */
module Containment {

  /** One axis of the edge check: first the low edge, then the high edge. */
  function ContainAxis(v: real, size: real, bound: real): (r: real)
    ensures size / 2.0 <= v <= bound - size / 2.0 ==> r == v
    ensures size <= bound ==> size / 2.0 <= r <= bound - size / 2.0
    ensures size <= bound && v < size / 2.0 ==> r == size / 2.0
    ensures size <= bound && v > bound - size / 2.0 ==> r == bound - size / 2.0
    ensures size > bound ==> r == bound - size / 2.0
  {
    var low := if v - size / 2.0 < 0.0 then size / 2.0 else v;
    if low + size / 2.0 > bound then bound - size / 2.0 else low
  }

  /** Clamping an already clamped coordinate changes nothing. */
  lemma ContainAxisIdempotent(v: real, size: real, bound: real)
    ensures ContainAxis(ContainAxis(v, size, bound), size, bound) == ContainAxis(v, size, bound)
  {
  }
}
