/** The Complex value type: a pair (real, imaginary) with exact field-wise
    equality, arithmetic that never faults, and the polar views Modulus and
    Angle. Doubles become reals; Math.Sqrt, Math.Atan2, Math.Cos and Math.Sin
    come from the MathFns record passed to the members that call them. */
module ComplexNumbers {
  import opened SystemMath

  /** The component of the marker that a division by zero returns. */
  const Huge: real := 1.0e300

  datatype Complex = Complex(re: real, im: real) {

    /** Conjugate (getter): the mirror image across the real axis. */
    function Conjugate(): Complex {
      Complex(re, -im)
    }

    /** The value of the struct after `Conjugate = value`. */
    function WithConjugate(value: Complex): (r: Complex)
      ensures r.Conjugate() == value
    {
      value.Conjugate()
    }

    /** re * re + im * im, the argument of Math.Sqrt in Modulus. */
    function Norm(): real {
      re * re + im * im
    }

    /** Modulus (getter): Math.Sqrt(re * re + im * im). */
    function Modulus(m: MathFns): (r: real)
      ensures SqrtLaw(m) ==> 0.0 <= r && r * r == re * re + im * im
    {
      Sqrt(m, Norm())
    }

    /** Modulus * Modulus: the divisor of the division operators. */
    function SquaredModulus(m: MathFns): real {
      Modulus(m) * Modulus(m)
    }

    /** The value of the struct after `Modulus = value`: the origin becomes
        (value, 0); any other value has both parts scaled by value / |c|. */
    function WithModulus(m: MathFns, value: real): Complex
      requires SqrtLaw(m)
    {
      if re == 0.0 && im == 0.0 then
        Complex(value, 0.0)
      else
        ModulusPositive(m, this);
        var x1 := value / Modulus(m);
        Complex(re * x1, im * x1)
    }

    /** Angle (getter): PI on the negative real axis, 0 on the rest of the
        real axis, and Math.Atan2(im, re) everywhere else. */
    function Angle(m: MathFns): (r: real)
      ensures im == 0.0 ==> r == (if re < 0.0 then PI else 0.0)
      ensures im != 0.0 ==> r == Atan2(m, im, re)
    {
      if im == 0.0 && re < 0.0 then PI
      else if im == 0.0 && re >= 0.0 then 0.0
      else Atan2(m, im, re)
    }

    /** The value of the struct after `Angle = value`: the current modulus
        along the new direction. */
    function WithAngle(m: MathFns, value: real): Complex {
      var modulus := Modulus(m);
      Complex(Cos(m, value) * modulus, Sin(m, value) * modulus)
    }

    /** Equals(Complex): exact comparison of both parts, no tolerance. */
    predicate Equals(c: Complex) {
      re == c.re && im == c.im
    }

    /** operator !=: the negation of Equals. */
    predicate NotEquals(c: Complex) {
      !Equals(c)
    }
  }

  const Zero := Complex(0.0, 0.0)
  const One := Complex(1.0, 0.0)
  /** Complex.I */
  const I := Complex(0.0, 1.0)
  /** The value (1e300, 1e300) that every division by zero returns. */
  const Sentinel := Complex(Huge, Huge)

  // Unary operators

  function Plus(c: Complex): Complex {
    c
  }

  function Negate(c: Complex): Complex {
    Complex(-c.re, -c.im)
  }

  // Binary operators, complex and scalar forms in both operand orders

  function Add(c1: Complex, c2: Complex): Complex {
    Complex(c1.re + c2.re, c1.im + c2.im)
  }

  function AddReal(c1: Complex, c2: real): Complex {
    Complex(c1.re + c2, c1.im)
  }

  function RealAdd(c1: real, c2: Complex): Complex {
    Complex(c1 + c2.re, c2.im)
  }

  function Sub(c1: Complex, c2: Complex): Complex {
    Complex(c1.re - c2.re, c1.im - c2.im)
  }

  function SubReal(c1: Complex, c2: real): Complex {
    Complex(c1.re - c2, c1.im)
  }

  function RealSub(c1: real, c2: Complex): Complex {
    Complex(c1 - c2.re, -c2.im)
  }

  function Mul(c1: Complex, c2: Complex): Complex {
    Complex(c1.re * c2.re - c1.im * c2.im, c1.re * c2.im + c1.im * c2.re)
  }

  function MulReal(c1: Complex, c2: real): Complex {
    Complex(c1.re * c2, c1.im * c2)
  }

  function RealMul(c1: real, c2: Complex): Complex {
    Complex(c1 * c2.re, c1 * c2.im)
  }

  /** Complex division through the squared modulus of the divisor; a zero
      divisor gives the Sentinel instead of a fault. */
  function Div(m: MathFns, c1: Complex, c2: Complex): (r: Complex)
    requires SqrtLaw(m)
    ensures c2 == Zero ==> r == Sentinel
  {
    if c2.re == 0.0 && c2.im == 0.0 then
      Sentinel
    else
      SquaredModulusIsNorm(m, c2);
      Complex((c1.re * c2.re + c1.im * c2.im) / c2.SquaredModulus(m),
              (c1.im * c2.re - c1.re * c2.im) / c2.SquaredModulus(m))
  }

  function DivReal(c1: Complex, c2: real): (r: Complex)
    ensures c2 == 0.0 ==> r == Sentinel
  {
    if c2 == 0.0 then Sentinel else Complex(c1.re / c2, c1.im / c2)
  }

  function RealDiv(m: MathFns, c1: real, c2: Complex): (r: Complex)
    requires SqrtLaw(m)
    ensures c2 == Zero ==> r == Sentinel
  {
    if c2.re == 0.0 && c2.im == 0.0 then
      Sentinel
    else
      SquaredModulusIsNorm(m, c2);
      Complex(c1 * c2.re / c2.SquaredModulus(m),
              -c1 * c2.im / c2.SquaredModulus(m))
  }

  // Properties of the type

  /** A non-zero value has a positive modulus whose square is its norm. */
  lemma ModulusPositive(m: MathFns, c: Complex)
    requires SqrtLaw(m)
    requires c != Zero
    ensures 0.0 < c.Modulus(m)
    ensures c.Modulus(m) * c.Modulus(m) == c.re * c.re + c.im * c.im
  {
    SqrtOfSumOfSquares(m, c.re, c.im);
  }

  /** The squared modulus of a non-zero value is its norm, and not zero. */
  lemma SquaredModulusIsNorm(m: MathFns, c: Complex)
    requires SqrtLaw(m)
    requires c != Zero
    ensures c.SquaredModulus(m) == c.re * c.re + c.im * c.im
    ensures c.SquaredModulus(m) != 0.0
  {
    ModulusPositive(m, c);
    ProductOfNonZero(c.Modulus(m), c.Modulus(m), c.SquaredModulus(m));
  }

  /** A product of two equal non-zero factors is not zero. */
  lemma ProductOfNonZero(x: real, y: real, q: real)
    requires x != 0.0 && y == x
    requires q == x * y
    ensures q != 0.0
  {
  }

  /** Conjugating twice gives the value back. */
  lemma ConjugateInvolutive(c: Complex)
    ensures c.Conjugate().Conjugate() == c
    ensures c.Conjugate() == Complex(c.re, -c.im)
  {
  }

  /** Complex.I is a square root of -1, of modulus 1. */
  lemma ISquaredIsMinusOne(m: MathFns)
    requires SqrtLaw(m)
    ensures Mul(I, I) == Negate(One)
    ensures I.Modulus(m) == 1.0
  {
    SqrtOfSquare(m, 1.0, I.Norm());
  }

  /** Equality is exact field-wise comparison, and != is its negation. */
  lemma EqualityIsFieldwise(c1: Complex, c2: Complex)
    ensures c1.Equals(c2) <==> c1 == c2
    ensures c1.NotEquals(c2) <==> c1 != c2
  {
  }

  /** Unary + is the identity, unary - undoes itself, and c - c is zero. */
  lemma UnaryLaws(c: Complex)
    ensures Plus(c) == c
    ensures Negate(Negate(c)) == c
    ensures Sub(c, c) == Zero
    ensures Add(c, Negate(c)) == Zero
  {
  }

  /** + and * commute; adding or subtracting a real touches only the real
      part; multiplying by a real scales both parts, in either operand order. */
  lemma ArithmeticLaws(c1: Complex, c2: Complex, d: real)
    ensures Add(c1, c2) == Add(c2, c1)
    ensures Mul(c1, c2) == Mul(c2, c1)
    ensures AddReal(c1, d) == RealAdd(d, c1) == Complex(c1.re + d, c1.im)
    ensures SubReal(c1, d) == Complex(c1.re - d, c1.im)
    ensures RealSub(d, c1) == Negate(SubReal(c1, d))
    ensures MulReal(c1, d) == RealMul(d, c1) == Mul(c1, Complex(d, 0.0))
  {
  }

  /** Every form of division by zero returns exactly the Sentinel, whatever
      the numerator. */
  lemma DivisionByZeroIsSentinel(m: MathFns, c: Complex, d: real)
    requires SqrtLaw(m)
    ensures Div(m, c, Zero) == Sentinel
    ensures DivReal(c, 0.0) == Sentinel
    ensures RealDiv(m, d, Zero) == Sentinel
  {
  }

  /** The algebra behind dividing and multiplying back, with n the squared
      modulus of the divisor (c, d). */
  lemma DivMulAlgebra(a: real, b: real, c: real, d: real, n: real)
    requires n != 0.0
    requires n == c * c + d * d
    ensures (a * c + b * d) / n * c - (b * c - a * d) / n * d == a
    ensures (a * c + b * d) / n * d + (b * c - a * d) / n * c == b
    ensures a * c / n * c - (-a * d / n) * d == a
    ensures a * c / n * d + (-a * d / n) * c == 0.0
    ensures (c * c + d * d) / n == 1.0
    ensures (d * c - c * d) / n == 0.0
  {
    calc {
      (a * c + b * d) / n * c - (b * c - a * d) / n * d;
      ((a * c + b * d) * c - (b * c - a * d) * d) / n;
      (a * (c * c + d * d)) / n;
      a * n / n;
      a;
    }
    calc {
      (a * c + b * d) / n * d + (b * c - a * d) / n * c;
      ((a * c + b * d) * d + (b * c - a * d) * c) / n;
      (b * (c * c + d * d)) / n;
      b * n / n;
      b;
    }
    calc {
      a * c / n * c - (-a * d / n) * d;
      (a * (c * c + d * d)) / n;
      a * n / n;
      a;
    }
  }

  /** For a non-zero divisor, division undoes multiplication. */
  lemma DivUndoesMul(m: MathFns, c1: Complex, c2: Complex)
    requires SqrtLaw(m)
    requires c2 != Zero
    ensures Mul(Div(m, c1, c2), c2) == c1
  {
    SquaredModulusIsNorm(m, c2);
    var q := Div(m, c1, c2);
    QuotientTimesDivisor(q.re, q.im, c1.re, c1.im, c2.re, c2.im, c2.SquaredModulus(m));
  }

  /** (x, y) = (a, b) / (c, d) with n = c * c + d * d, written out: then
      (x, y) * (c, d) = (a, b). */
  lemma QuotientTimesDivisor(x: real, y: real, a: real, b: real, c: real, d: real, n: real)
    requires n != 0.0 && n == c * c + d * d
    requires x == (a * c + b * d) / n && y == (b * c - a * d) / n
    ensures x * c - y * d == a
    ensures x * d + y * c == b
  {
    DivMulAlgebra(a, b, c, d, n);
  }

  /** A non-zero value divided by itself is one. */
  lemma DivSelfIsOne(m: MathFns, c: Complex)
    requires SqrtLaw(m)
    requires c != Zero
    ensures Div(m, c, c) == One
  {
    SquaredModulusIsNorm(m, c);
    DivMulAlgebra(c.re, c.im, c.re, c.im, c.SquaredModulus(m));
  }

  /** Dividing a real by a non-zero complex value and multiplying back gives
      that real. */
  lemma RealDivUndoesMul(m: MathFns, d: real, c2: Complex)
    requires SqrtLaw(m)
    requires c2 != Zero
    ensures Mul(RealDiv(m, d, c2), c2) == Complex(d, 0.0)
  {
    SquaredModulusIsNorm(m, c2);
    DivMulAlgebra(d, 0.0, c2.re, c2.im, c2.SquaredModulus(m));
  }

  /** Dividing by a non-zero real and multiplying back gives the value. */
  lemma DivRealUndoesMulReal(c: Complex, d: real)
    requires d != 0.0
    ensures MulReal(DivReal(c, d), d) == c
  {
  }

  /** Modulus and Angle are the polar form: the value is recovered as
      modulus * (cos angle, sin angle), on the real axis through the special
      cases of Angle and elsewhere through atan2. */
  lemma PolarForm(m: MathFns, c: Complex)
    requires SqrtLaw(m) && PolarLaw(m)
    ensures c.Modulus(m) * Cos(m, c.Angle(m)) == c.re
    ensures c.Modulus(m) * Sin(m, c.Angle(m)) == c.im
  {
    if c.im != 0.0 {
      PolarFormOffAxis(m, c);
    } else {
      PolarFormOnAxis(m, c);
    }
  }

  lemma PolarFormOffAxis(m: MathFns, c: Complex)
    requires PolarLaw(m)
    requires c.im != 0.0
    ensures c.Modulus(m) * Cos(m, c.Angle(m)) == c.re
    ensures c.Modulus(m) * Sin(m, c.Angle(m)) == c.im
  {
    assert c.Angle(m) == Atan2(m, c.im, c.re);
    assert Sqrt(m, c.Norm()) * Cos(m, Atan2(m, c.im, c.re)) == c.re;
    assert Sqrt(m, c.Norm()) * Sin(m, Atan2(m, c.im, c.re)) == c.im;
  }

  lemma PolarFormOnAxis(m: MathFns, c: Complex)
    requires SqrtLaw(m) && PolarLaw(m)
    requires c.im == 0.0
    ensures c.Modulus(m) * Cos(m, c.Angle(m)) == c.re
    ensures c.Modulus(m) * Sin(m, c.Angle(m)) == c.im
  {
    var mod, angle := c.Modulus(m), c.Angle(m);
    if c.re < 0.0 {
      SqrtOfSquare(m, -c.re, c.Norm());
      assert angle == PI && Cos(m, angle) == -1.0 && Sin(m, angle) == 0.0;
    } else {
      SqrtOfSquare(m, c.re, c.Norm());
      assert angle == 0.0 && Cos(m, angle) == 1.0 && Sin(m, angle) == 0.0;
    }
    assert mod * Sin(m, angle) == 0.0;
  }

  /** The zero value has modulus 0 and angle 0. */
  lemma ZeroHasNoModulusOrAngle(m: MathFns)
    requires SqrtLaw(m)
    ensures Zero.Modulus(m) == 0.0
    ensures Zero.Angle(m) == 0.0
  {
    SqrtOfSquare(m, 0.0, 0.0 * 0.0 + 0.0 * 0.0);
  }

  /** Scaling (a, b) by v / s, where s is its modulus, gives norm v * v. */
  lemma ScaledNorm(a: real, b: real, s: real, v: real)
    requires 0.0 < s && s * s == a * a + b * b
    ensures (a * (v / s)) * (a * (v / s)) + (b * (v / s)) * (b * (v / s)) == v * v
  {
    var k := v / s;
    assert k * s == v;
    calc {
      (a * k) * (a * k) + (b * k) * (b * k);
      (k * k) * (a * a + b * b);
      (k * k) * (s * s);
      (k * s) * (k * s);
    }
  }

  /** Scaling (a, b) by a non-negative k keeps its direction. */
  lemma ScaledDirection(a: real, b: real, k: real)
    requires 0.0 <= k
    ensures (a * k) * b == (b * k) * a
    ensures 0.0 <= (a * k) * a && 0.0 <= (b * k) * b
  {
    SquareNonNegative(a);
    SquareNonNegative(b);
    assert (a * k) * a == k * (a * a);
    assert (b * k) * b == k * (b * b);
  }

  /** Setting the modulus of the origin gives (value, 0); on any other value a
      non-negative modulus is reached exactly, along the same direction. */
  lemma WithModulusSetsModulus(m: MathFns, c: Complex, value: real)
    requires SqrtLaw(m)
    requires 0.0 <= value
    ensures c == Zero ==> c.WithModulus(m, value) == Complex(value, 0.0)
    ensures c.WithModulus(m, value).Modulus(m) == value
    ensures c != Zero ==>
      var r := c.WithModulus(m, value);
      && r.re * c.im == r.im * c.re
      && 0.0 <= r.re * c.re
      && 0.0 <= r.im * c.im
  {
    var r := c.WithModulus(m, value);
    if c == Zero {
      SqrtOfSquare(m, value, r.Norm());
    } else {
      ModulusPositive(m, c);
      var s := c.Modulus(m);
      ScaledNorm(c.re, c.im, s, value);
      SqrtOfSquare(m, value, r.Norm());
      ScaledDirection(c.re, c.im, value / s);
    }
  }

  /** cos and sin at one angle scale a length without changing it. */
  lemma RotatedNorm(cs: real, sn: real, len: real)
    requires cs * cs + sn * sn == 1.0
    ensures (cs * len) * (cs * len) + (sn * len) * (sn * len) == len * len
  {
    calc {
      (cs * len) * (cs * len) + (sn * len) * (sn * len);
      (cs * cs + sn * sn) * (len * len);
    }
  }

  /** Setting the angle keeps the modulus. */
  lemma WithAngleKeepsModulus(m: MathFns, c: Complex, value: real)
    requires SqrtLaw(m) && PythagorasLaw(m)
    ensures c.WithAngle(m, value).Modulus(m) == c.Modulus(m)
  {
    var r := c.WithAngle(m, value);
    RotatedNorm(Cos(m, value), Sin(m, value), c.Modulus(m));
    SqrtOfSquare(m, c.Modulus(m), r.Norm());
  }
}
