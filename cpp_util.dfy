/**
 * Small numeric helpers shared by every controller (CppUtil).
 * Floats are modelled as reals; `clamp_limit` is the bound every
 * motor-voltage and command output relies on.
 */
module CppUtil {

  /** Limits `val` to [valMin, valMax]; the upper bound is tested first. */
  function ClampLimit(val: real, valMin: real, valMax: real): (r: real)
    ensures valMin <= valMax ==> valMin <= r <= valMax
    ensures r == val || r == valMin || r == valMax
  {
    if val > valMax then valMax
    else if val < valMin then valMin
    else val
  }

  /** A value already inside the range passes through unchanged. */
  lemma ClampIdentity(val: real, valMin: real, valMax: real)
    requires valMin <= val <= valMax
    ensures ClampLimit(val, valMin, valMax) == val
  {
  }

  /** Clamping twice with the same well-formed bounds is clamping once. */
  lemma ClampIdempotent(val: real, valMin: real, valMax: real)
    requires valMin <= valMax
    ensures ClampLimit(ClampLimit(val, valMin, valMax), valMin, valMax) == ClampLimit(val, valMin, valMax)
  {
  }

  /**
   * Because the upper bound is checked first, anything above valMax
   * yields valMax, even when the bounds are inverted; with inverted
   * bounds, anything at most valMax yields valMin.
   */
  lemma ClampUpperFirst(val: real, valMin: real, valMax: real)
    ensures val > valMax ==> ClampLimit(val, valMin, valMax) == valMax
    ensures valMin > valMax && val <= valMax ==> ClampLimit(val, valMin, valMax) == valMin
  {
  }

  /** Clamping to a symmetric band [-b, b] commutes with negation. */
  lemma ClampSymmetric(val: real, b: real)
    requires b >= 0.0
    ensures ClampLimit(-val, -b, b) == -ClampLimit(val, -b, b)
  {
  }

  /**
   * Wraps `val` into [valMin, valMax) by the floating remainder `fmod`,
   * which is not part of this model: whenever the remainder lies in
   * [0, valMax - valMin), the result lies in [valMin, valMax).
   */
  function ModLimit(val: real, valMin: real, valMax: real, fmod: (real, real) -> real): (r: real)
    ensures 0.0 <= fmod(val - valMin, valMax - valMin) < valMax - valMin ==> valMin <= r < valMax
  {
    fmod(val - valMin, valMax - valMin) + valMin
  }

  /** The smaller of two integers. */
  function Min(a: int, b: int): (r: int)
    ensures r == a || r == b
    ensures r <= a && r <= b
  {
    if a < b then a else b
  }

  /** The larger of two integers. */
  function Max(a: int, b: int): (r: int)
    ensures r == a || r == b
    ensures r >= a && r >= b
  {
    if a > b then a else b
  }
}
