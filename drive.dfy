/**
 * The two conversions the scripts apply before commanding the drive base:
 * a percentage of the 500 unit/s top speed (`500 * (pct / 100)`) and a DC
 * duty cycle (`power / 100`).
 */
module Drive {

  const TopSpeed: real := 500.0

  /** `500 * (percent / 100)`: mm/s for a straight speed, deg/s for a turn rate. */
  function ScaledSpeed(percent: int): (v: real)
    ensures 0 <= percent ==> 0.0 <= v
    ensures percent <= 100 ==> v <= TopSpeed
    ensures percent == 100 ==> v == TopSpeed
  {
    TopSpeed * (percent as real / 100.0)
  }

  /** The conversion is linear in the percentage... */
  lemma ScaledSpeedLinear(a: int, b: int, k: int)
    ensures ScaledSpeed(a + b) == ScaledSpeed(a) + ScaledSpeed(b)
    ensures ScaledSpeed(k * a) == k as real * ScaledSpeed(a)
  {
  }

  /** ...and strictly monotone: a larger percentage always gives a faster setting. */
  lemma ScaledSpeedMonotone(a: int, b: int)
    ensures a < b <==> ScaledSpeed(a) < ScaledSpeed(b)
    ensures a == b <==> ScaledSpeed(a) == ScaledSpeed(b)
  {
  }

  /** `left.dc(power / 100)`: the duty cycle handed to each drive motor. */
  function Duty(power: int): (d: real)
    ensures 0 < power <= 100 ==> 0.0 < d <= 1.0
    ensures d * 100.0 == power as real
  {
    power as real / 100.0
  }
}
