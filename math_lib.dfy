/**
 * The C math library routines the firmware calls. The transcendental
 * ones (atan2f, sinf, cosf) are not part of this model: every component
 * that needs them receives them as function values, so nothing proved
 * here depends on what they compute. fabsf is exact and defined here.
 */
module MathLib {

  datatype Trig = Trig(atan2: (real, real) -> real, sin: real -> real, cos: real -> real)

  /** fabsf: the magnitude of x. */
  function Fabs(x: real): (r: real)
    ensures r >= 0.0 && (r == x || r == -x)
  {
    if x < 0.0 then -x else x
  }

  /** The value of M_PI (pi to 21 significant digits). */
  const Pi: real := 3.14159265358979323846
}
