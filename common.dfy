/** Small numeric helpers shared by the rule engine and the hybrid merge. */
module Common {

  /** A value that may be absent (JavaScript `undefined`, `null` or a missing key). */
  datatype Option<+T> = None | Some(value: T)

  /** `Math.min(a, b)`, and also the `if (x > cap) x = cap` clamp. */
  function Min(a: real, b: real): (r: real)
    ensures r <= a && r <= b
    ensures r == a || r == b
  {
    if a <= b then a else b
  }

  /**
   * The number of hundredths that `Number.prototype.toFixed(2)` keeps, on exact
   * reals: the magnitude is rounded to the nearest hundredth, a tie going up,
   * and the sign is re-attached.
   */
  function Hundredths(x: real): (k: int)
    ensures x * 100.0 - 0.5 <= k as real <= x * 100.0 + 0.5
    ensures x >= 0.0 ==> k >= 0 && x * 100.0 - 0.5 < k as real
  {
    if x >= 0.0 then (x * 100.0 + 0.5).Floor else -((-x * 100.0 + 0.5).Floor)
  }

  /** `toFixed(2)` read back as a number: a whole number of hundredths within 0.005 of `x`. */
  function Round2(x: real): (r: real)
    ensures r * 100.0 == Hundredths(x) as real
    ensures x - 0.005 <= r <= x + 0.005
  {
    Hundredths(x) as real / 100.0
  }

  /** Rounding keeps a score of the unit interval inside it. */
  lemma Round2UnitInterval(x: real)
    requires 0.0 <= x <= 1.0
    ensures 0.0 <= Round2(x) <= 1.0
  {
    var k := Hundredths(x);
    assert k as real <= 100.5;
  }

  /** Rounding preserves the order of non-negative values. */
  lemma Round2Monotone(x: real, y: real)
    requires 0.0 <= x <= y
    ensures Round2(x) <= Round2(y)
  {
    var kx, ky := Hundredths(x), Hundredths(y);
    assert x * 100.0 <= y * 100.0;
    assert kx as real < ky as real + 1.0;
    assert kx <= ky;
  }
}
