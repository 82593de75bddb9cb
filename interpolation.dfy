/** Interpolation.Linear: piecewise-linear interpolation on a grid xs with
    samples ys, in its four overloads. A query with no bracket gives "no
    value" (NaN in the original, None here); reading past the end of an array
    is the IndexOutOfRangeException of the original, IndexOutOfRange here. */
module Interpolation {
  import opened Wrappers
  import opened ComplexNumbers

  // Specification of the scalar overload

  /** x lies in the half-open bracket [xs[i], xs[i + 1]). */
  predicate Brackets(xs: seq<real>, x: real, i: nat)
    requires i + 1 < |xs|
  {
    xs[i] <= x < xs[i + 1]
  }

  /** Iteration i of the loop reads past the end of an array: the grid when
      xs[i] <= x holds at the last grid point, the samples when x is bracketed
      by segment i but ys has no entry i + 1. */
  predicate FaultsAt(xs: seq<real>, ys: seq<real>, x: real, i: nat)
    requires i < |xs|
  {
    xs[i] <= x && (i + 1 == |xs| || (x < xs[i + 1] && i + 1 >= |ys|))
  }

  predicate Faults(xs: seq<real>, ys: seq<real>, x: real) {
    exists i: nat :: i < |xs| && FaultsAt(xs, ys, x, i)
  }

  /** The straight line through (x0, a0) and (x1, a1), evaluated at x, in
      the order of operations of the original. */
  function Lerp(x: real, x0: real, x1: real, a0: real, a1: real): real
    requires x0 != x1
  {
    a0 + (x - x0) * (a1 - a0) / (x1 - x0)
  }

  /** The part of the run from x0 to x1 that x has covered. */
  function Fraction(x: real, x0: real, x1: real): real
    requires x0 != x1
  {
    (x - x0) / (x1 - x0)
  }

  /** The straight line through segment i, evaluated at x. */
  function Segment(xs: seq<real>, ys: seq<real>, x: real, i: nat): real
    requires i + 1 < |xs| && i + 1 < |ys|
    requires Brackets(xs, x, i)
  {
    Lerp(x, xs[i], xs[i + 1], ys[i], ys[i + 1])
  }

  /** The last of the segments 0 .. n - 1 that brackets x, if any. */
  function LastMatch(xs: seq<real>, x: real, n: nat): (r: Option<nat>)
    requires n <= |xs|
    ensures r.Some? ==>
      && r.value < n && r.value + 1 < |xs| && Brackets(xs, x, r.value)
      && forall j: nat :: r.value < j < n && j + 1 < |xs| ==> !Brackets(xs, x, j)
    ensures r.None? ==>
      forall j: nat :: j < n && j + 1 < |xs| ==> !Brackets(xs, x, j)
  {
    if n == 0 then None
    else if n < |xs| && Brackets(xs, x, n - 1) then Some(n - 1)
    else LastMatch(xs, x, n - 1)
  }

  /** What the scalar overload computes: a fault if any iteration reads past
      an array, otherwise the line through the last bracketing segment, or no
      value when no segment brackets x. */
  function Interpolate(xs: seq<real>, ys: seq<real>, x: real): Fallible<Option<real>> {
    if Faults(xs, ys, x) then
      IndexOutOfRange
    else
      match LastMatch(xs, x, |xs|)
      case None => Ok(None)
      case Some(i) =>
        assert !FaultsAt(xs, ys, x, i);
        Ok(Some(Segment(xs, ys, x, i)))
  }

  /** The value that LastMatch(xs, x, n) selects, for a prefix of n
      iterations that has not faulted. */
  function PrefixValue(xs: seq<real>, ys: seq<real>, x: real, n: nat): Option<real>
    requires n <= |xs|
    requires forall j: nat :: j < n ==> !FaultsAt(xs, ys, x, j)
  {
    match LastMatch(xs, x, n)
    case None => None
    case Some(i) =>
      assert !FaultsAt(xs, ys, x, i);
      Some(Segment(xs, ys, x, i))
  }

  // The four overloads

  /** Linear(double[], double[], double): scans every segment without
      stopping, so the last bracketing segment wins. */
  method Linear(xarray: array<real>, yarray: array<real>, x: real) returns (r: Fallible<Option<real>>)
    ensures r == Interpolate(xarray[..], yarray[..], x)
  {
    ghost var xs, ys := xarray[..], yarray[..];
    var y: Option<real> := None;
    var i := 0;
    while i < xarray.Length
      invariant 0 <= i <= xarray.Length
      invariant forall j: nat :: j < i ==> !FaultsAt(xs, ys, x, j)
      invariant y == PrefixValue(xs, ys, x, i)
    {
      if x >= xarray[i] {
        if i + 1 >= xarray.Length {
          assert FaultsAt(xs, ys, x, i);
          return IndexOutOfRange;
        }
        if x < xarray[i + 1] {
          if i + 1 >= yarray.Length {
            assert FaultsAt(xs, ys, x, i);
            return IndexOutOfRange;
          }
          y := Some(yarray[i] + (x - xarray[i]) * (yarray[i + 1] - yarray[i]) /
                    (xarray[i + 1] - xarray[i]));
          assert LastMatch(xs, x, i + 1) == Some(i);
          assert xs[i] == xarray[i] && xs[i + 1] == xarray[i + 1];
          assert ys[i] == yarray[i] && ys[i + 1] == yarray[i + 1];
          assert y.value == Segment(xs, ys, x, i);
        }
      }
      i := i + 1;
    }
    return Ok(y);
  }

  /** What the overload over a vector of queries computes. */
  function InterpolateAll(xs: seq<real>, ys: seq<real>, qs: seq<real>): (r: Fallible<seq<Option<real>>>)
    ensures r.IndexOutOfRange? <==>
      exists k :: 0 <= k < |qs| && Interpolate(xs, ys, qs[k]).IndexOutOfRange?
    ensures r.Ok? ==>
      |r.value| == |qs| &&
      forall k :: 0 <= k < |qs| ==> Interpolate(xs, ys, qs[k]) == Ok(r.value[k])
  {
    if qs == [] then
      Ok([])
    else
      match Interpolate(xs, ys, qs[0])
      case IndexOutOfRange => IndexOutOfRange
      case Ok(y) =>
        match InterpolateAll(xs, ys, qs[1..])
        case IndexOutOfRange => IndexOutOfRange
        case Ok(rest) => Ok([y] + rest)
  }

  /** Linear(double[], double[], double[]): one scalar query per entry of x,
      into a fresh array of the same length. */
  method LinearAll(xarray: array<real>, yarray: array<real>, x: array<real>)
    returns (r: Fallible<array<Option<real>>>)
    ensures r.IndexOutOfRange? <==> InterpolateAll(xarray[..], yarray[..], x[..]).IndexOutOfRange?
    ensures r.Ok? ==> fresh(r.value) && r.value[..] == InterpolateAll(xarray[..], yarray[..], x[..]).value
  {
    var y := new Option<real>[x.Length](_ => None);
    var i := 0;
    while i < x.Length
      invariant 0 <= i <= x.Length
      invariant forall k :: 0 <= k < i ==> Interpolate(xarray[..], yarray[..], x[k]) == Ok(y[k])
    {
      var yi := Linear(xarray, yarray, x[i]);
      if yi.IndexOutOfRange? {
        assert Interpolate(xarray[..], yarray[..], x[..][i]).IndexOutOfRange?;
        return IndexOutOfRange;
      }
      y[i] := yi.value;
      i := i + 1;
    }
    ghost var all := InterpolateAll(xarray[..], yarray[..], x[..]);
    assert !all.IndexOutOfRange? by {
      forall k | 0 <= k < x.Length
        ensures !Interpolate(xarray[..], yarray[..], x[..][k]).IndexOutOfRange?
      {
      }
    }
    assert y[..] == all.value;
    return Ok(y);
  }

  // The complex overloads

  /** The real parts of ys, as the loop of the complex overload copies them. */
  function Reals(ys: seq<Complex>): (r: seq<real>)
    ensures |r| == |ys| && forall k :: 0 <= k < |ys| ==> r[k] == ys[k].re
  {
    seq(|ys|, k requires 0 <= k < |ys| => ys[k].re)
  }

  /** The imaginary parts of ys. */
  function Imags(ys: seq<Complex>): (r: seq<real>)
    ensures |r| == |ys| && forall k :: 0 <= k < |ys| ==> r[k] == ys[k].im
  {
    seq(|ys|, k requires 0 <= k < |ys| => ys[k].im)
  }

  /** What the complex overload computes: each channel interpolated on its
      own; None stands for the value whose two parts are NaN. */
  function InterpolateComplex(xs: seq<real>, ys: seq<Complex>, x: real): Fallible<Option<Complex>> {
    match Interpolate(xs, Reals(ys), x)
    case IndexOutOfRange => IndexOutOfRange
    case Ok(re) =>
      match Interpolate(xs, Imags(ys), x)
      case IndexOutOfRange => IndexOutOfRange
      case Ok(im) =>
        if re.Some? && im.Some? then Ok(Some(Complex(re.value, im.value))) else Ok(None)
  }

  /** Linear(double[], Complex[], double): copies the two channels into fresh
      arrays and interpolates each with the scalar overload. */
  method LinearComplex(xarray: array<real>, yarray: array<Complex>, x: real)
    returns (r: Fallible<Option<Complex>>)
    ensures r == InterpolateComplex(xarray[..], yarray[..], x)
  {
    var yReal := new real[yarray.Length];
    var yImaginary := new real[yarray.Length];
    var i := 0;
    while i < yarray.Length
      invariant 0 <= i <= yarray.Length
      invariant forall k :: 0 <= k < i ==> yReal[k] == yarray[k].re && yImaginary[k] == yarray[k].im
    {
      yReal[i] := yarray[i].re;
      yImaginary[i] := yarray[i].im;
      i := i + 1;
    }
    assert yReal[..] == Reals(yarray[..]);
    assert yImaginary[..] == Imags(yarray[..]);
    var re := Linear(xarray, yReal, x);
    if re.IndexOutOfRange? {
      return IndexOutOfRange;
    }
    var im := Linear(xarray, yImaginary, x);
    if im.IndexOutOfRange? {
      return IndexOutOfRange;
    }
    if re.value.Some? && im.value.Some? {
      return Ok(Some(Complex(re.value.value, im.value.value)));
    }
    return Ok(None);
  }

  /** What the complex overload over a vector of queries computes. */
  function InterpolateComplexAll(xs: seq<real>, ys: seq<Complex>, qs: seq<real>): (r: Fallible<seq<Option<Complex>>>)
    ensures r.IndexOutOfRange? <==>
      exists k :: 0 <= k < |qs| && InterpolateComplex(xs, ys, qs[k]).IndexOutOfRange?
    ensures r.Ok? ==>
      |r.value| == |qs| &&
      forall k :: 0 <= k < |qs| ==> InterpolateComplex(xs, ys, qs[k]) == Ok(r.value[k])
  {
    if qs == [] then
      Ok([])
    else
      match InterpolateComplex(xs, ys, qs[0])
      case IndexOutOfRange => IndexOutOfRange
      case Ok(y) =>
        match InterpolateComplexAll(xs, ys, qs[1..])
        case IndexOutOfRange => IndexOutOfRange
        case Ok(rest) => Ok([y] + rest)
  }

  /** Linear(double[], Complex[], double[]): one complex query per entry of x,
      into a fresh array of the same length. */
  method LinearComplexAll(xarray: array<real>, yarray: array<Complex>, x: array<real>)
    returns (r: Fallible<array<Option<Complex>>>)
    ensures r.IndexOutOfRange? <==> InterpolateComplexAll(xarray[..], yarray[..], x[..]).IndexOutOfRange?
    ensures r.Ok? ==> fresh(r.value) && r.value[..] == InterpolateComplexAll(xarray[..], yarray[..], x[..]).value
  {
    var y := new Option<Complex>[x.Length](_ => None);
    var i := 0;
    while i < x.Length
      invariant 0 <= i <= x.Length
      invariant forall k :: 0 <= k < i ==> InterpolateComplex(xarray[..], yarray[..], x[k]) == Ok(y[k])
    {
      var yi := LinearComplex(xarray, yarray, x[i]);
      if yi.IndexOutOfRange? {
        assert InterpolateComplex(xarray[..], yarray[..], x[..][i]).IndexOutOfRange?;
        return IndexOutOfRange;
      }
      y[i] := yi.value;
      i := i + 1;
    }
    ghost var all := InterpolateComplexAll(xarray[..], yarray[..], x[..]);
    assert !all.IndexOutOfRange? by {
      forall k | 0 <= k < x.Length
        ensures !InterpolateComplex(xarray[..], yarray[..], x[..][k]).IndexOutOfRange?
      {
      }
    }
    assert y[..] == all.value;
    return Ok(y);
  }

  // Properties

  predicate StrictlyAscending(xs: seq<real>) {
    forall i, j :: 0 <= i < j < |xs| ==> xs[i] < xs[j]
  }

  /** Index safety: with at least as many samples as grid points and x below
      the last grid point, no iteration reads past an array. */
  lemma SafeBelowLastPoint(xs: seq<real>, ys: seq<real>, x: real)
    requires |ys| >= |xs|
    requires |xs| == 0 || x < xs[|xs| - 1]
    ensures Interpolate(xs, ys, x).Ok?
  {
    forall i: nat | i < |xs|
      ensures !FaultsAt(xs, ys, x, i)
    {
      if i + 1 == |xs| {
        assert x < xs[i];
      }
    }
  }

  /** At or beyond the last grid point the final iteration reads one entry
      past the grid, so the call throws instead of returning NaN. */
  lemma FaultsFromLastPoint(xs: seq<real>, ys: seq<real>, x: real)
    requires 0 < |xs| && xs[|xs| - 1] <= x
    ensures Interpolate(xs, ys, x) == IndexOutOfRange
  {
    assert FaultsAt(xs, ys, x, |xs| - 1);
  }

  /** A bracketing segment without its second sample reads past the samples. */
  lemma FaultsOnMissingSample(xs: seq<real>, ys: seq<real>, x: real, i: nat)
    requires i + 1 < |xs| && Brackets(xs, x, i)
    requires |ys| <= i + 1
    ensures Interpolate(xs, ys, x) == IndexOutOfRange
  {
    assert FaultsAt(xs, ys, x, i);
  }

  /** No extrapolation: below the first point of an ascending grid, or on an
      empty grid, there is no value. */
  lemma NoValueBelowGrid(xs: seq<real>, ys: seq<real>, x: real)
    requires StrictlyAscending(xs)
    requires |xs| == 0 || x < xs[0]
    ensures Interpolate(xs, ys, x) == Ok(None)
  {
    forall i: nat | i < |xs|
      ensures x < xs[i]
    {
      if 0 < i {
        assert xs[0] < xs[i];
      }
    }
    assert !Faults(xs, ys, x);
  }

  /** On a strictly ascending grid with enough samples, the segment that
      brackets x is the only one, and its line gives the value. */
  lemma UniqueBracket(xs: seq<real>, ys: seq<real>, x: real, i: nat)
    requires StrictlyAscending(xs) && |ys| >= |xs|
    requires i + 1 < |xs| && Brackets(xs, x, i)
    ensures Interpolate(xs, ys, x) == Ok(Some(Segment(xs, ys, x, i)))
  {
    if i + 1 < |xs| - 1 {
      assert xs[i + 1] < xs[|xs| - 1];
    }
    SafeBelowLastPoint(xs, ys, x);
    var k := LastMatch(xs, x, |xs|);
    assert k.Some?;
    assert k.value == i;
  }

  /** At a grid point that starts a segment the value is its sample. */
  lemma KnotValue(xs: seq<real>, ys: seq<real>, i: nat)
    requires StrictlyAscending(xs) && |ys| >= |xs|
    requires i + 1 < |xs|
    ensures Interpolate(xs, ys, xs[i]) == Ok(Some(ys[i]))
  {
    UniqueBracket(xs, ys, xs[i], i);
  }

  function Min(a: real, b: real): real {
    if a <= b then a else b
  }

  function Max(a: real, b: real): real {
    if a <= b then b else a
  }

  /** A point on the line from (x0, a0) to (x1, a1), at an x in [x0, x1),
      lies between a0 and a1. */
  lemma LineBetween(x: real, x0: real, x1: real, a0: real, a1: real)
    requires x0 <= x < x1
    ensures Min(a0, a1) <= Lerp(x, x0, x1, a0, a1) <= Max(a0, a1)
  {
    FractionInUnit(x, x0, x1);
    ScaleByFraction(x, x0, x1, a0, a1);
    FractionBetween(Fraction(x, x0, x1), a0, a1);
  }

  /** The part of [x0, x1) that x has covered is a fraction in [0, 1). */
  lemma FractionInUnit(x: real, x0: real, x1: real)
    requires x0 <= x < x1
    ensures 0.0 <= Fraction(x, x0, x1) < 1.0
  {
    var t := Fraction(x, x0, x1);
    assert t * (x1 - x0) == x - x0;
    if t < 0.0 {
      ScaleSign(t, x0, x1);
    }
    if 1.0 <= t {
      ScaleSign(t - 1.0, x0, x1);
    }
  }

  /** Scaling a positive run keeps the sign of the factor. */
  lemma ScaleSign(s: real, x0: real, x1: real)
    requires x0 < x1
    ensures s < 0.0 ==> s * (x1 - x0) < 0.0
    ensures 0.0 <= s ==> 0.0 <= s * (x1 - x0)
  {
    var d := x1 - x0;
    assert s * (x1 - x0) == s * d;
  }

  /** Going a fraction t in [0, 1) of the way from a0 to a1 stays between
      them. */
  lemma FractionBetween(t: real, a0: real, a1: real)
    requires 0.0 <= t < 1.0
    ensures Min(a0, a1) <= a0 + (a1 - a0) * t <= Max(a0, a1)
  {
    if a0 <= a1 {
      NonNegativeProduct(a1 - a0, t);
      NonNegativeProduct(a1 - a0, 1.0 - t);
    } else {
      NonNegativeProduct(a0 - a1, t);
      NonNegativeProduct(a0 - a1, 1.0 - t);
    }
  }

  lemma NonNegativeProduct(a: real, b: real)
    requires 0.0 <= a && 0.0 <= b
    ensures 0.0 <= a * b
  {
  }

  /** On a strictly ascending grid an interpolated value lies between the two
      samples of its segment. */
  lemma BetweenEndpoints(xs: seq<real>, ys: seq<real>, x: real, i: nat)
    requires StrictlyAscending(xs) && |ys| >= |xs|
    requires i + 1 < |xs| && Brackets(xs, x, i)
    ensures Interpolate(xs, ys, x).Ok? && Interpolate(xs, ys, x).value.Some?
    ensures Min(ys[i], ys[i + 1]) <= Interpolate(xs, ys, x).value.value <= Max(ys[i], ys[i + 1])
  {
    UniqueBracket(xs, ys, x, i);
    LineBetween(x, xs[i], xs[i + 1], ys[i], ys[i + 1]);
  }

  /** There is no break in the loop: when x is below the last grid point and
      segment i is the last one that brackets it, segment i gives the value
      even if earlier segments bracket x too. */
  lemma LastBracketWins(xs: seq<real>, ys: seq<real>, x: real, i: nat)
    requires i + 1 < |xs| && Brackets(xs, x, i)
    requires |ys| >= |xs| && x < xs[|xs| - 1]
    requires forall j: nat :: i < j && j + 1 < |xs| ==> !Brackets(xs, x, j)
    ensures Interpolate(xs, ys, x) == Ok(Some(Segment(xs, ys, x, i)))
  {
    SafeBelowLastPoint(xs, ys, x);
    var k := LastMatch(xs, x, |xs|);
    assert k.Some?;
  }

  /** On the grid 0, 2, 1, 3 the query 1.5 is bracketed by segments 0 and 2;
      segment 2 wins and gives 150, where segment 0 would give 15. */
  lemma NonAscendingExample()
    ensures Interpolate([0.0, 2.0, 1.0, 3.0], [0.0, 20.0, 100.0, 300.0], 1.5) == Ok(Some(150.0))
  {
    var xs, ys := [0.0, 2.0, 1.0, 3.0], [0.0, 20.0, 100.0, 300.0];
    assert Brackets(xs, 1.5, 0) && Segment(xs, ys, 1.5, 0) == 15.0;
    LastBracketWins(xs, ys, 1.5, 2);
  }

  /** The headings of the test driver: halfway between the first two
      headings the value is the mean of their samples. */
  lemma HeadingExample(a: real, b: real, c: real)
    ensures Interpolate([0.0, 15.0, 30.0], [a, b, c], 7.5) == Ok(Some((a + b) / 2.0))
  {
    var xs, ys := [0.0, 15.0, 30.0], [a, b, c];
    UniqueBracket(xs, ys, 7.5, 0);
    assert Segment(xs, ys, 7.5, 0) == Lerp(7.5, 0.0, 15.0, a, b);
    assert Lerp(7.5, 0.0, 15.0, a, b) == a + 7.5 * (b - a) / 15.0;
  }

  /** A query on the last grid point throws rather than returning NaN. */
  lemma LastPointExample()
    ensures Interpolate([0.0, 1.0, 2.0], [0.0, 10.0, 20.0], 2.0) == IndexOutOfRange
  {
    FaultsFromLastPoint([0.0, 1.0, 2.0], [0.0, 10.0, 20.0], 2.0);
  }

  /** Whether a call throws, and whether it has a value, depends on the grid,
      the query and the number of samples only, not on the sample values. */
  lemma OutcomeIgnoresSampleValues(xs: seq<real>, ys1: seq<real>, ys2: seq<real>, x: real)
    requires |ys1| == |ys2|
    ensures Interpolate(xs, ys1, x).IndexOutOfRange? == Interpolate(xs, ys2, x).IndexOutOfRange?
    ensures Interpolate(xs, ys1, x).Ok? ==>
      (Interpolate(xs, ys1, x).value.Some? <==> Interpolate(xs, ys2, x).value.Some?)
  {
    assert Faults(xs, ys1, x) == Faults(xs, ys2, x) by {
      forall i: nat | i < |xs|
        ensures FaultsAt(xs, ys1, x, i) == FaultsAt(xs, ys2, x, i)
      {
      }
    }
  }

  /** A query vector entirely below the last grid point, with enough
      samples, never throws and gives one value per query. */
  lemma AllSafeBelowLastPoint(xs: seq<real>, ys: seq<real>, qs: seq<real>)
    requires |ys| >= |xs|
    requires forall k :: 0 <= k < |qs| ==> |xs| == 0 || qs[k] < xs[|xs| - 1]
    ensures InterpolateAll(xs, ys, qs).Ok?
    ensures |InterpolateAll(xs, ys, qs).value| == |qs|
  {
    forall k | 0 <= k < |qs|
      ensures Interpolate(xs, ys, qs[k]).Ok?
    {
      SafeBelowLastPoint(xs, ys, qs[k]);
    }
  }

  /** The two channels of the complex overload throw together and have a
      value together, so its result never mixes NaN with a number. */
  lemma ComplexChannelsAgree(xs: seq<real>, ys: seq<Complex>, x: real)
    ensures InterpolateComplex(xs, ys, x).IndexOutOfRange? <==> Interpolate(xs, Reals(ys), x).IndexOutOfRange?
    ensures InterpolateComplex(xs, ys, x).IndexOutOfRange? <==> Interpolate(xs, Imags(ys), x).IndexOutOfRange?
    ensures InterpolateComplex(xs, ys, x).Ok? ==>
      && (InterpolateComplex(xs, ys, x).value.Some? <==> Interpolate(xs, Reals(ys), x).value.Some?)
      && (InterpolateComplex(xs, ys, x).value.Some? <==> Interpolate(xs, Imags(ys), x).value.Some?)
  {
    OutcomeIgnoresSampleValues(xs, Reals(ys), Imags(ys), x);
  }

  /** The line moves from a0 by the fraction of the run covered times the
      rise. */
  lemma ScaleByFraction(x: real, x0: real, x1: real, a0: real, a1: real)
    requires x0 != x1
    ensures Lerp(x, x0, x1, a0, a1) == a0 + (a1 - a0) * Fraction(x, x0, x1)
  {
    var t := Fraction(x, x0, x1);
    assert t * (x1 - x0) == x - x0;
    assert (x - x0) * (a1 - a0) == (t * (x1 - x0)) * (a1 - a0);
  }

  /** The complex overload follows the complex line through the bracketing
      segment: ys[i] + t * (ys[i + 1] - ys[i]), t the fraction of the segment
      that x has covered. */
  lemma ComplexSegment(xs: seq<real>, ys: seq<Complex>, x: real, i: nat)
    requires StrictlyAscending(xs) && |ys| >= |xs|
    requires i + 1 < |xs| && Brackets(xs, x, i)
    ensures InterpolateComplex(xs, ys, x) ==
      Ok(Some(Add(ys[i], MulReal(Sub(ys[i + 1], ys[i]), Fraction(x, xs[i], xs[i + 1])))))
  {
    UniqueBracket(xs, Reals(ys), x, i);
    UniqueBracket(xs, Imags(ys), x, i);
    ChannelSegments(xs, ys, x, i);
    ComplexLine(ys[i], ys[i + 1], Fraction(x, xs[i], xs[i + 1]));
    assert InterpolateComplex(xs, ys, x) ==
      Ok(Some(Complex(Segment(xs, Reals(ys), x, i), Segment(xs, Imags(ys), x, i))));
    assert Complex(Segment(xs, Reals(ys), x, i), Segment(xs, Imags(ys), x, i)) ==
      Add(ys[i], MulReal(Sub(ys[i + 1], ys[i]), Fraction(x, xs[i], xs[i + 1])));
  }

  /** Each channel's segment is the line through that channel's samples. */
  lemma ChannelSegments(xs: seq<real>, ys: seq<Complex>, x: real, i: nat)
    requires i + 1 < |xs| && i + 1 < |ys| && Brackets(xs, x, i)
    ensures Segment(xs, Reals(ys), x, i) ==
      ys[i].re + (ys[i + 1].re - ys[i].re) * Fraction(x, xs[i], xs[i + 1])
    ensures Segment(xs, Imags(ys), x, i) ==
      ys[i].im + (ys[i + 1].im - ys[i].im) * Fraction(x, xs[i], xs[i + 1])
  {
    ScaleByFraction(x, xs[i], xs[i + 1], ys[i].re, ys[i + 1].re);
    ScaleByFraction(x, xs[i], xs[i + 1], ys[i].im, ys[i + 1].im);
    assert Reals(ys)[i] == ys[i].re && Reals(ys)[i + 1] == ys[i + 1].re;
    assert Imags(ys)[i] == ys[i].im && Imags(ys)[i + 1] == ys[i + 1].im;
  }

  /** The complex line from a towards b, part by part. */
  lemma ComplexLine(a: Complex, b: Complex, t: real)
    ensures Add(a, MulReal(Sub(b, a), t)) == Complex(a.re + (b.re - a.re) * t, a.im + (b.im - a.im) * t)
  {
  }

  /** At a grid point that starts a segment the complex value is its sample. */
  lemma ComplexKnotValue(xs: seq<real>, ys: seq<Complex>, i: nat)
    requires StrictlyAscending(xs) && |ys| >= |xs|
    requires i + 1 < |xs|
    ensures InterpolateComplex(xs, ys, xs[i]) == Ok(Some(ys[i]))
  {
    KnotValue(xs, Reals(ys), i);
    KnotValue(xs, Imags(ys), i);
  }
}
