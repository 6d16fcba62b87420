/** The transcendental `Math` functions the orb engine calls (`Math.exp`,
    `Math.pow`, `Math.sqrt`, `Math.hypot`, `Math.atan2`). They are not
    computed here: each operation that needs them receives a `Maths` value
    and relies only on the bounds that `Lawful` states. The model's numbers
    are exact reals; each bound also holds of IEEE double results for the
    arguments the engine passes. The strict bound on `pow` is stated only for
    the window exponent 1.8: there `x^1.8 <= x`, so a rounded power of a
    double below 1 stays below 1, whereas a small exponent can round up to
    exactly 1. */
module Transcendental {
  import opened Numeric

  datatype Maths = Maths(
    exp: real -> real,
    pow: (real, real) -> real,
    sqrt: real -> real,
    hypot: (real, real) -> real,
    atan2: (real, real) -> real)

  /** The only facts about the transcendental functions that the model uses. */
  ghost predicate Lawful(m: Maths)
  {
    // exp maps non-positive arguments into [0, 1] (0 only by underflow) and exp(0) == 1
    && (forall x :: x <= 0.0 ==> 0.0 <= m.exp(x) <= 1.0)
    && m.exp(0.0) == 1.0
    // a power of a base in [0, 1] with a positive exponent stays in [0, 1],
    // the window's power x^1.8 stays below 1 when the base does, and 1^y == 1
    && (forall x, y :: 0.0 <= x <= 1.0 && 0.0 < y ==> 0.0 <= m.pow(x, y) <= 1.0)
    && (forall x :: 0.0 <= x < 1.0 ==> m.pow(x, 1.8) < 1.0)
    && (forall y :: m.pow(1.0, y) == 1.0)
    // square roots and hypotenuses are never negative
    && (forall x :: 0.0 <= x ==> 0.0 <= m.sqrt(x))
    && (forall x, y :: 0.0 <= m.hypot(x, y))
    // atan2 returns an angle in [-pi, pi]
    && (forall y, x :: -Pi <= m.atan2(y, x) <= Pi)
  }
}
