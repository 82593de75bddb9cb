/** The part of the Math2 vector library that TransferRAO uses: a complex
    3-vector scaled by a real, built from real coordinates, and the cross
    product. The library itself is not part of this model; these are the
    standard definitions. */
module Vectors {
  import opened ComplexNumbers

  /** VectorC * double: every entry scaled by s. */
  function Scale(v: seq<Complex>, s: real): (r: seq<Complex>)
    ensures |r| == |v|
    ensures forall i :: 0 <= i < |v| ==> r[i] == MulReal(v[i], s)
  {
    seq(|v|, i requires 0 <= i < |v| => MulReal(v[i], s))
  }

  /** A point with real coordinates as a complex vector (zero imaginary parts). */
  function RealPoint(p: seq<real>): (r: seq<Complex>)
    ensures |r| == |p|
    ensures forall i :: 0 <= i < |p| ==> r[i] == Complex(p[i], 0.0)
  {
    seq(|p|, i requires 0 <= i < |p| => Complex(p[i], 0.0))
  }

  /** VectorC.CrossProduct of two 3-vectors. */
  function Cross(a: seq<Complex>, b: seq<Complex>): seq<Complex>
    requires |a| == 3 && |b| == 3
  {
    [Sub(Mul(a[1], b[2]), Mul(a[2], b[1])),
     Sub(Mul(a[2], b[0]), Mul(a[0], b[2])),
     Sub(Mul(a[0], b[1]), Mul(a[1], b[0]))]
  }

  /** Multiplying by a complex value with zero imaginary part is scaling by
      its real part. */
  lemma MulByRealPart(c: Complex, d: real)
    ensures Mul(c, Complex(d, 0.0)) == MulReal(c, d)
  {
  }

  /** Against a real vector the cross product has the textbook components,
      each a difference of two scaled entries of a. */
  lemma CrossWithRealPoint(a: seq<Complex>, p: seq<real>)
    requires |a| == 3 && |p| == 3
    ensures Cross(a, RealPoint(p)) ==
      [Sub(MulReal(a[1], p[2]), MulReal(a[2], p[1])),
       Sub(MulReal(a[2], p[0]), MulReal(a[0], p[2])),
       Sub(MulReal(a[0], p[1]), MulReal(a[1], p[0]))]
  {
    var b := RealPoint(p);
    MulByRealPart(a[1], p[2]);
    MulByRealPart(a[2], p[1]);
    MulByRealPart(a[2], p[0]);
    MulByRealPart(a[0], p[2]);
    MulByRealPart(a[0], p[1]);
    MulByRealPart(a[1], p[0]);
  }

  /** The cross product with the zero vector is the zero vector. */
  lemma CrossWithOrigin(a: seq<Complex>)
    requires |a| == 3
    ensures Cross(a, RealPoint([0.0, 0.0, 0.0])) == [Zero, Zero, Zero]
  {
    CrossWithRealPoint(a, [0.0, 0.0, 0.0]);
  }

  /** Reversing the real vector reverses the cross product. */
  lemma CrossWithOppositePoint(a: seq<Complex>, p: seq<real>)
    requires |a| == 3 && |p| == 3
    ensures Cross(a, RealPoint([-p[0], -p[1], -p[2]])) ==
      [Negate(Cross(a, RealPoint(p))[0]),
       Negate(Cross(a, RealPoint(p))[1]),
       Negate(Cross(a, RealPoint(p))[2])]
  {
    var q := [-p[0], -p[1], -p[2]];
    CrossWithRealPoint(a, p);
    CrossWithRealPoint(a, q);
    forall i, j | 0 <= i < 3 && 0 <= j < 3
      ensures MulReal(a[i], q[j]) == Negate(MulReal(a[i], p[j]))
    {
      MulRealByOpposite(a[i], p[j]);
    }
  }

  lemma MulRealByOpposite(c: Complex, d: real)
    ensures MulReal(c, -d) == Negate(MulReal(c, d))
  {
  }
}
