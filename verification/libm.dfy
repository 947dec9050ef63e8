/** The C math library functions the renderer calls (`cosf`, `sinf`, `tanf`,
    `sqrtf`), kept uninterpreted: they are passed around as a record of
    functions, and each property that needs a fact about them names that fact
    as a predicate over the record in its `requires`. */
module Libm {

  /** Decimal value of the `M_PI` macro; the single-precision rounding of
      `float(M_PI)` is not modelled. */
  const Pi: real := 3.14159265358979323846

  datatype Libm = Libm(
    cos: real -> real,
    sin: real -> real,
    tan: real -> real,
    sqrt: real -> real)

  /** cos 0 = 1 and sin 0 = 0. */
  predicate ZeroAngle(libm: Libm)
  {
    libm.cos(0.0) == 1.0 && libm.sin(0.0) == 0.0
  }

  /** cos² a + sin² a = 1 for every angle a. */
  ghost predicate Pythagorean(libm: Libm)
  {
    forall a :: libm.cos(a) * libm.cos(a) + libm.sin(a) * libm.sin(a) == 1.0
  }

  /** The square root of 0 is 0 and that of a positive number is positive. */
  ghost predicate SqrtPositive(libm: Libm)
  {
    libm.sqrt(0.0) == 0.0 && forall s :: s > 0.0 ==> libm.sqrt(s) > 0.0
  }

  /** A full turn of 2π brings cos and sin back to their values at 0. */
  predicate FullTurn(libm: Libm)
  {
    libm.cos(2.0 * Pi) == libm.cos(0.0) && libm.sin(2.0 * Pi) == libm.sin(0.0)
  }
}
