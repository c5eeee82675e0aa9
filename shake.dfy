/**
  The camera shake: a shot sets a frame counter, and every frame while the
  counter is positive draws a fresh offset within half the intensity either
  way and counts down; once the counter is 0 the offset is 0.
 */
module ShakeEffect {

  const ShakeIntensity: real := 10.0
  /** The counter a shot sets. */
  const ShakeFrames: int := 10

  datatype Shake = Shake(offsetX: real, offsetY: real, duration: int)

  const Still: Shake := Shake(0.0, 0.0, 0)

  /** One frame of shake. `rx` and `ry` are the two values the frame draws
      from the random source, which promises them in [0, 1). */
  function Tick(s: Shake, rx: real, ry: real): (r: Shake)
    ensures s.duration > 0 ==> r.duration == s.duration - 1
    ensures s.duration > 0 && 0.0 <= rx < 1.0 && 0.0 <= ry < 1.0 ==>
              && -ShakeIntensity / 2.0 <= r.offsetX < ShakeIntensity / 2.0
              && -ShakeIntensity / 2.0 <= r.offsetY < ShakeIntensity / 2.0
    ensures s.duration <= 0 ==> r == Shake(0.0, 0.0, s.duration)
  {
    if s.duration > 0 then
      Shake(rx * ShakeIntensity - ShakeIntensity / 2.0, ry * ShakeIntensity - ShakeIntensity / 2.0, s.duration - 1)
    else
      Shake(0.0, 0.0, s.duration)
  }

  /** Consecutive frames of shake, one pair of random draws per frame. */
  function Ticks(s: Shake, draws: seq<(real, real)>): Shake
    decreases |draws|
  {
    if draws == [] then s else Ticks(Tick(s, draws[0].0, draws[0].1), draws[1..])
  }

  /** The counter falls by exactly one per frame down to 0 and then stays
      there; every frame after it reaches 0 has no offset. */
  lemma {:induction false} ShakeDecays(s: Shake, draws: seq<(real, real)>)
    requires s.duration >= 0
    ensures Ticks(s, draws).duration == if |draws| <= s.duration then s.duration - |draws| else 0
    ensures |draws| > s.duration ==> Ticks(s, draws).offsetX == 0.0 && Ticks(s, draws).offsetY == 0.0
    decreases |draws|
  {
    if draws != [] {
      ShakeDecays(Tick(s, draws[0].0, draws[0].1), draws[1..]);
    }
  }
}
