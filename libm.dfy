/** The transcendental functions of the C math library, left uninterpreted.
    Only facts that hold of the real functions are built into their types. */
module Libm {

  type PosReal = r: real | r > 0.0 witness 1.0

  /** The open interval (-pi/2, pi/2), the range of atan. */
  type HalfTurn = r: real | -Pi / 2.0 < r < Pi / 2.0 witness 0.0

  /** log, exp, atan, sqrt and pow as the caller's environment supplies them.
      exp is positive, atan lies strictly between -pi/2 and pi/2, sqrt maps
      positives to positives, and pow of a positive base is positive; nothing
      else is known about them. */
  datatype MathLib = MathLib(
    log: real -> real,
    exp: real -> PosReal,
    atan: real -> HalfTurn,
    sqrt: PosReal -> PosReal,
    pow: (PosReal, real) -> PosReal)

  /** The one further law the model relies on: a base below one raised to a
      positive exponent stays below one. */
  ghost predicate Lawful(lib: MathLib) {
    forall b: PosReal, e: real :: b < 1.0 && e > 0.0 ==> lib.pow(b, e) < 1.0
  }

  /** M_PI */
  const Pi: real := 3.14159265358979323846

  /** Division whose divisor is the result of an uninterpreted call and so may be
      zero; the model yields 0 there, where IEEE arithmetic would give an
      infinity or NaN. */
  function Quot(x: real, y: real): real {
    if y == 0.0 then 0.0 else x / y
  }

  /** pow(b, e) for a base that may be zero and a positive exponent: C's pow
      returns +0 for a zero base. */
  function PowZeroBase(lib: MathLib, b: real, e: real): (r: real)
    requires b >= 0.0 && e > 0.0
    ensures b == 0.0 ==> r == 0.0
    ensures Lawful(lib) && b < 1.0 ==> 0.0 <= r < 1.0
  {
    if b == 0.0 then 0.0 else lib.pow(b, e)
  }

  function Abs(x: real): (r: real)
    ensures r >= 0.0 && (r == x || r == -x)
  {
    if x < 0.0 then -x else x
  }

  function Min(a: real, b: real): real {
    if a <= b then a else b
  }

  function Max(a: real, b: real): real {
    if a >= b then a else b
  }

  /** x to a natural power; the source's pow(x, 2.), pow(x, 3.), ... */
  function Power(x: real, n: nat): real {
    if n == 0 then 1.0 else Mul(Power(x, n - 1), x)
  }

  // Sign facts about real arithmetic. Products are kept behind Mul so that the
  // solver meets the (nonlinear) facts as properties of one term.

  function Mul(x: real, y: real): real {
    x * y
  }

  lemma MulPositive(x: real, y: real)
    requires (x > 0.0 && y > 0.0) || (x < 0.0 && y < 0.0)
    ensures Mul(x, y) > 0.0
  {
  }

  /** x * x: never negative, and positive unless x is zero. */
  function Sq(x: real): (r: real)
    ensures r >= 0.0
    ensures x != 0.0 ==> r > 0.0
  {
    if x != 0.0 then MulPositive(x, x); Mul(x, x) else Mul(x, x)
  }

  /** Quotient and product of positives, with the sign carried by the type. */
  function PosDiv(x: PosReal, y: PosReal): PosReal {
    x / y
  }

  function PosMul(x: PosReal, y: PosReal): PosReal {
    x * y
  }

  lemma SquareAbove(a: real, b: real)
    requires a > b > 0.0
    ensures a * a - b * b > 0.0
  {
    assert a * a > a * b;
    assert a * b > b * b;
  }

  lemma ProductNonNegative(x: real, y: real)
    requires x >= 0.0 && y >= 0.0
    ensures x * y >= 0.0
  {
  }

  lemma ProductPositive(x: real, y: real)
    requires x > 0.0 && y > 0.0
    ensures x * y > 0.0
  {
  }

  lemma QuotientPositive(x: real, y: real)
    requires x > 0.0 && y > 0.0
    ensures x / y > 0.0
  {
  }

  lemma QuotientNonNegative(x: real, y: real)
    requires x >= 0.0 && y > 0.0
    ensures x / y >= 0.0
  {
  }
}
