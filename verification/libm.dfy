/** The parts of the C math library the filter calls, taken as parameters.

    Samples and coefficients are modelled as `real`. The transcendental functions,
    the NaN test and the value a double division by zero produces (an infinity or a
    NaN, neither of which is a `real`) are left uninterpreted: every property proved
    about the filter holds whatever these functions return.
 */
module MathLib {

  /** One choice of `sin`, `cos`, `pow`, `isnan` and of the quotient `n / 0.0`. */
  datatype Libm = Libm(
    sin: real -> real,
    cos: real -> real,
    pow: (real, real) -> real,
    isNan: real -> bool,
    overZero: real -> real)

  /** The value of `M_PI`. */
  const Pi: real := 3.14159265358979323846

  /** The double quotient `n / d`; a zero divisor gives whatever the library makes of it. */
  function Quot(m: Libm, n: real, d: real): (q: real)
    ensures d != 0.0 ==> q * d == n
    ensures d == 0.0 ==> q == m.overZero(n)
  {
    if d == 0.0 then m.overZero(n) else n / d
  }
}
