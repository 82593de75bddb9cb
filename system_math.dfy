/** The part of System.Math the core calls: Math.PI, Math.Sqrt, Math.Atan2,
    Math.Cos and Math.Sin, over real numbers instead of doubles. */
module SystemMath {

  /** Math.PI: the double closest to pi, written out exactly. */
  const PI: real := 3.141592653589793115997963468544185161590576171875

  /** The transcendental functions are not defined here. Every operation that
      calls them takes this record, and a lemma that depends on what they
      compute requires the matching law below. */
  datatype MathFns = MathFns(
    sqrt: real -> real,
    atan2: (real, real) -> real,
    cos: real -> real,
    sin: real -> real)

  /** Math.Sqrt */
  function Sqrt(m: MathFns, x: real): real {
    m.sqrt(x)
  }

  /** Math.Atan2(y, x) */
  function Atan2(m: MathFns, y: real, x: real): real {
    m.atan2(y, x)
  }

  /** Math.Cos */
  function Cos(m: MathFns, t: real): real {
    m.cos(t)
  }

  /** Math.Sin */
  function Sin(m: MathFns, t: real): real {
    m.sin(t)
  }

  /** Math.Sqrt returns the non-negative square root of a non-negative
      argument, which is positive when the argument is. */
  ghost predicate SqrtLaw(m: MathFns) {
    forall x :: 0.0 <= x ==>
      && 0.0 <= Sqrt(m, x)
      && Sqrt(m, x) * Sqrt(m, x) == x
      && (0.0 < x ==> 0.0 < Sqrt(m, x))
  }

  /** cos^2 + sin^2 == 1 at every angle. */
  ghost predicate PythagorasLaw(m: MathFns) {
    forall t :: Cos(m, t) * Cos(m, t) + Sin(m, t) * Sin(m, t) == 1.0
  }

  /** The polar form: cos and sin at 0 and at PI, and atan2(y, x) is a direction
      from which the modulus recovers (x, y) off the real axis. At PI this
      idealises Math.Cos and Math.Sin: PI is the double nearest to pi, not pi,
      and the sine of that number is about 1.22e-16, not 0. */
  ghost predicate PolarLaw(m: MathFns) {
    && Cos(m, 0.0) == 1.0 && Sin(m, 0.0) == 0.0
    && Cos(m, PI) == -1.0 && Sin(m, PI) == 0.0
    && forall y, x :: y != 0.0 ==>
         && Sqrt(m, x * x + y * y) * Cos(m, Atan2(m, y, x)) == x
         && Sqrt(m, x * x + y * y) * Sin(m, Atan2(m, y, x)) == y
  }

  /** The square root is unique: on the square of a non-negative number it
      gives that number back. */
  lemma SqrtOfSquare(m: MathFns, v: real, x: real)
    requires SqrtLaw(m)
    requires 0.0 <= v && x == v * v
    ensures Sqrt(m, x) == v
  {
    var s := Sqrt(m, x);
    assert 0.0 <= s && s * s == v * v;
    if s < v {
      SquareIsStrictlyMonotone(s, v);
    } else if v < s {
      SquareIsStrictlyMonotone(v, s);
    }
  }

  lemma SquareIsStrictlyMonotone(a: real, b: real)
    requires 0.0 <= a < b
    ensures a * a < b * b
  {
    var low, mid, high := a * a, a * b, b * b;
    assert low <= mid < high;
  }

  lemma SquareNonNegative(a: real)
    ensures 0.0 <= a * a
    ensures a != 0.0 ==> 0.0 < a * a
  {
    if a < 0.0 {
      var b := -a;
      assert a * a == b * b;
    }
  }

  /** The square root of a sum of two squares, not both zero, is positive. */
  lemma SqrtOfSumOfSquares(m: MathFns, a: real, b: real)
    requires SqrtLaw(m)
    requires a != 0.0 || b != 0.0
    ensures 0.0 < a * a + b * b
    ensures 0.0 < Sqrt(m, a * a + b * b)
    ensures Sqrt(m, a * a + b * b) * Sqrt(m, a * a + b * b) == a * a + b * b
  {
    SumOfSquaresPositive(a, b);
  }

  lemma SumOfSquaresPositive(a: real, b: real)
    requires a != 0.0 || b != 0.0
    ensures 0.0 < a * a + b * b
  {
    SquareNonNegative(a);
    SquareNonNegative(b);
  }
}
