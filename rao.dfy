/** Response Amplitude Operators of a vessel over a frequency axis, for the
    six degrees of freedom surge, sway, heave (translations, 0-2) and roll,
    pitch, yaw (rotations, 3-5). Each degree of freedom holds an amplitude
    vector, a phase vector in degrees and a complex vector, one entry per
    frequency. */
module Rao {
  import opened SystemMath
  import opened ComplexNumbers
  import opened Vectors

  /** Number of degrees of freedom. */
  const DOF: nat := 6

  /** Math.PI / 180 */
  const Deg2Rad: real := PI / 180.0

  // Specification functions

  /** The number of entries strictly greater than 5, the size of
      Array.FindAll(input, x => x > 5). */
  function LargeCount(xs: seq<real>): nat {
    if xs == [] then 0
    else LargeCount(xs[..|xs| - 1]) + (if xs[|xs| - 1] > 5.0 then 1 else 0)
  }

  /** The constructor's guess: more than three entries above 5 means the axis
      holds periods in seconds, not frequencies in rad/s. */
  predicate LooksLikePeriods(xs: seq<real>) {
    LargeCount(xs) > 3
  }

  predicate NonZero(xs: seq<real>) {
    forall i :: 0 <= i < |xs| ==> xs[i] != 0.0
  }

  /** No array appears twice in vs. */
  predicate Distinct<T>(vs: seq<array<T>>) {
    forall d, e :: 0 <= d < e < |vs| ==> vs[d] != vs[e]
  }

  /** No array of vs is an array of ws. */
  predicate Apart<T>(vs: seq<array<T>>, ws: seq<array<T>>) {
    forall d, e :: 0 <= d < |vs| && 0 <= e < |ws| ==> vs[d] != ws[e]
  }

  /** 2 * Math.PI / x for every entry: period from frequency and back. */
  function TwoPiOver(xs: seq<real>): (r: seq<real>)
    requires NonZero(xs)
    ensures |r| == |xs|
    ensures forall i :: 0 <= i < |xs| ==> r[i] * xs[i] == 2.0 * PI
  {
    seq(|xs|, i requires 0 <= i < |xs| => 2.0 * PI / xs[i])
  }

  /** The amplitudes of complex values: their moduli. */
  function Amplitudes(m: MathFns, cs: seq<Complex>): (r: seq<real>)
    ensures |r| == |cs| && forall k :: 0 <= k < |cs| ==> r[k] == cs[k].Modulus(m)
  {
    seq(|cs|, k requires 0 <= k < |cs| => cs[k].Modulus(m))
  }

  /** The phases of complex values, in degrees. */
  function Phases(m: MathFns, cs: seq<Complex>): (r: seq<real>)
    ensures |r| == |cs| && forall k :: 0 <= k < |cs| ==> r[k] == cs[k].Angle(m) / Deg2Rad
  {
    seq(|cs|, k requires 0 <= k < |cs| => cs[k].Angle(m) / Deg2Rad)
  }

  /** The complex value of an amplitude and a phase in degrees. */
  function PolarValue(m: MathFns, amp: real, phase: real): Complex
  {
    Complex(amp * Cos(m, phase * Deg2Rad), amp * Sin(m, phase * Deg2Rad))
  }

  /** The complex values of amplitudes and phases in degrees. */
  function FromPolar(m: MathFns, amps: seq<real>, phases: seq<real>): (r: seq<Complex>)
    requires |amps| == |phases|
    ensures |r| == |amps|
    ensures forall k :: 0 <= k < |amps| ==> r[k] == PolarValue(m, amps[k], phases[k])
  {
    seq(|amps|, k requires 0 <= k < |amps| => PolarValue(m, amps[k], phases[k]))
  }

  /** The offset TransferPoint - ReferencePoint as a complex 3-vector. */
  function Offset(reference: seq<real>, transfer: seq<real>): (r: seq<Complex>)
    requires |reference| >= 3 && |transfer| >= 3
    ensures r == RealPoint([transfer[0] - reference[0], transfer[1] - reference[1], transfer[2] - reference[2]])
  {
    [Complex(transfer[0] - reference[0], 0.0),
     Complex(transfer[1] - reference[1], 0.0),
     Complex(transfer[2] - reference[2], 0.0)]
  }

  /** Translational degree of freedom j (0 surge, 1 sway, 2 heave) moved by
      offset: each entry gains component j of rotation x offset, the rotation
      being (roll, pitch, yaw) at that frequency in radians. */
  function Translated(trans: seq<Complex>, roll: seq<Complex>, pitch: seq<Complex>, yaw: seq<Complex>,
                      offset: seq<Complex>, j: nat): (r: seq<Complex>)
    requires |roll| == |trans| && |pitch| == |trans| && |yaw| == |trans|
    requires |offset| == 3 && j < 3
    ensures |r| == |trans|
  {
    seq(|trans|, k requires 0 <= k < |trans| =>
      Add(trans[k], Cross(Scale([roll[k], pitch[k], yaw[k]], Deg2Rad), offset)[j]))
  }

  /** The inner loop of CalculateAmplitudeAndPhase: the moduli and the angles
      in degrees of the first n entries of one complex vector, into fresh
      vectors. */
  method PolarVectors(m: MathFns, complex1Dof: array<Complex>, n: nat)
    returns (amplitude1Dof: array<real>, phase1Dof: array<real>)
    requires n <= complex1Dof.Length
    ensures fresh(amplitude1Dof) && fresh(phase1Dof) && amplitude1Dof != phase1Dof
    ensures amplitude1Dof[..] == Amplitudes(m, complex1Dof[..n])
    ensures phase1Dof[..] == Phases(m, complex1Dof[..n])
  {
    amplitude1Dof := new real[n];
    phase1Dof := new real[n];
    var iFreq := 0;
    while iFreq < n
      invariant 0 <= iFreq <= n
      invariant forall k :: 0 <= k < iFreq ==>
        amplitude1Dof[k] == complex1Dof[k].Modulus(m) && phase1Dof[k] == complex1Dof[k].Angle(m) / Deg2Rad
    {
      amplitude1Dof[iFreq] := complex1Dof[iFreq].Modulus(m);
      phase1Dof[iFreq] := complex1Dof[iFreq].Angle(m) / Deg2Rad;
      iFreq := iFreq + 1;
    }
  }

  /** The inner loop of CalculateComplex: the complex values of the first n
      amplitudes and phases of one degree of freedom, into a fresh vector. */
  method ComplexVector(m: MathFns, amplitude1Dof: array<real>, phase1Dof: array<real>, n: nat)
    returns (complex1Dof: array<Complex>)
    requires n <= amplitude1Dof.Length && n <= phase1Dof.Length
    ensures fresh(complex1Dof)
    ensures complex1Dof[..] == FromPolar(m, amplitude1Dof[..n], phase1Dof[..n])
  {
    complex1Dof := new Complex[n];
    var iFreq := 0;
    while iFreq < n
      invariant 0 <= iFreq <= n
      invariant forall k :: 0 <= k < iFreq ==>
        complex1Dof[k] == PolarValue(m, amplitude1Dof[k], phase1Dof[k])
    {
      complex1Dof[iFreq] := PolarValue(m, amplitude1Dof[iFreq], phase1Dof[iFreq]);
      iFreq := iFreq + 1;
    }
  }

  /** The frequency loop of TransferRAO: the three translational vectors of
      complex moved by diffPoint, into fresh vectors. */
  method TranslatedVectors(complex: seq<array<Complex>>, diffPoint: seq<Complex>, n: nat)
    returns (newSurge: array<Complex>, newSway: array<Complex>, newHeave: array<Complex>)
    requires |complex| == DOF && |diffPoint| == 3
    requires forall d :: 0 <= d < DOF ==> complex[d].Length == n
    ensures fresh(newSurge) && fresh(newSway) && fresh(newHeave)
    ensures newSurge != newSway && newSurge != newHeave && newSway != newHeave
    ensures newSurge[..] == Translated(complex[0][..], complex[3][..], complex[4][..], complex[5][..], diffPoint, 0)
    ensures newSway[..] == Translated(complex[1][..], complex[3][..], complex[4][..], complex[5][..], diffPoint, 1)
    ensures newHeave[..] == Translated(complex[2][..], complex[3][..], complex[4][..], complex[5][..], diffPoint, 2)
  {
    newSurge := new Complex[n];
    newSway := new Complex[n];
    newHeave := new Complex[n];
    var iFreq := 0;
    while iFreq < n
      invariant 0 <= iFreq <= n
      invariant forall k :: 0 <= k < iFreq ==>
        var rotation := [complex[3][k], complex[4][k], complex[5][k]];
        && newSurge[k] == Add(complex[0][k], Cross(Scale(rotation, Deg2Rad), diffPoint)[0])
        && newSway[k] == Add(complex[1][k], Cross(Scale(rotation, Deg2Rad), diffPoint)[1])
        && newHeave[k] == Add(complex[2][k], Cross(Scale(rotation, Deg2Rad), diffPoint)[2])
    {
      var vectorCRotation := [complex[3][iFreq], complex[4][iFreq], complex[5][iFreq]];
      newSurge[iFreq] := Add(complex[0][iFreq], Cross(Scale(vectorCRotation, Deg2Rad), diffPoint)[0]);
      newSway[iFreq] := Add(complex[1][iFreq], Cross(Scale(vectorCRotation, Deg2Rad), diffPoint)[1]);
      newHeave[iFreq] := Add(complex[2][iFreq], Cross(Scale(vectorCRotation, Deg2Rad), diffPoint)[2]);
      iFreq := iFreq + 1;
    }
  }

  class RAO {
    var frequency: array<real>
    var period: array?<real>
    var amplitude: seq<array<real>>
    var phase: seq<array<real>>
    var complex: seq<array<Complex>>
    /** The point at which the RAOs were computed; not set until a transfer
        or SetReferencePoint. */
    var referencePoint: array?<real>

    /** Six vectors per kind, each as long as the frequency axis, and a
        frequency axis without zeros. */
    ghost predicate Valid()
      reads this, frequency
    {
      && |amplitude| == DOF && |phase| == DOF && |complex| == DOF
      && (forall d :: 0 <= d < DOF ==>
            && amplitude[d].Length == frequency.Length
            && phase[d].Length == frequency.Length
            && complex[d].Length == frequency.Length)
      && NonZero(frequency[..])
    }

    /** The twelve real vectors are twelve different arrays, and the six
        complex vectors six different arrays. */
    ghost predicate Unshared()
      reads this
    {
      Distinct(amplitude) && Distinct(phase) && Apart(amplitude, phase) && Distinct(complex)
    }

    /** The axes that RAO(input) sets up, freshness apart: when
        LooksLikePeriods holds of the input it is the period axis and the
        frequency axis is 2 pi / x of it; otherwise it is the frequency axis
        and the period axis is 2 pi / x of it, or null for an empty input. */
    ghost predicate AxesFrom(input: array<real>)
      requires NonZero(input[..])
      reads this, input, frequency, period
    {
      if LooksLikePeriods(input[..]) then
        period == input && frequency[..] == TwoPiOver(input[..])
      else
        && frequency == input
        && (input.Length == 0 ==> period == null)
        && (input.Length > 0 ==> period != null && period[..] == TwoPiOver(input[..]))
    }

    /** RAO(double[]): decides by LooksLikePeriods whether the input is a
        period or a frequency axis, stores it as such, derives the other one,
        and allocates zero vectors for every degree of freedom. */
    constructor(inputFrequency: array<real>)
      requires NonZero(inputFrequency[..])
      ensures Valid()
      ensures frequency.Length == inputFrequency.Length
      ensures AxesFrom(inputFrequency)
      ensures LooksLikePeriods(inputFrequency[..]) ==> fresh(frequency)
      ensures !LooksLikePeriods(inputFrequency[..]) && inputFrequency.Length > 0 ==> fresh(period)
      ensures forall d :: 0 <= d < DOF ==>
        && fresh(amplitude[d]) && fresh(phase[d]) && fresh(complex[d])
        && (forall k :: 0 <= k < frequency.Length ==>
              amplitude[d][k] == 0.0 && phase[d][k] == 0.0 && complex[d][k] == Zero)
      ensures Unshared()
      ensures referencePoint == null
    {
      // The vectors are allocated first, while the fields are still being
      // initialised; the original allocates them last, with the same length.
      var n := inputFrequency.Length;
      var amplitudes: seq<array<real>>, phases: seq<array<real>>, complexes: seq<array<Complex>> := [], [], [];
      var iMotion := 0;
      while iMotion < DOF
        invariant 0 <= iMotion <= DOF
        invariant |amplitudes| == iMotion && |phases| == iMotion && |complexes| == iMotion
        invariant forall d :: 0 <= d < iMotion ==>
          && fresh(amplitudes[d]) && fresh(phases[d]) && fresh(complexes[d])
          && amplitudes[d].Length == n && phases[d].Length == n && complexes[d].Length == n
          && (forall k :: 0 <= k < n ==>
                amplitudes[d][k] == 0.0 && phases[d][k] == 0.0 && complexes[d][k] == Zero)
        invariant Distinct(amplitudes) && Distinct(phases) && Apart(amplitudes, phases) && Distinct(complexes)
      {
        var a := new real[n](_ => 0.0);
        var p := new real[n](_ => 0.0);
        var c := new Complex[n](_ => Zero);
        amplitudes, phases, complexes := amplitudes + [a], phases + [p], complexes + [c];
        iMotion := iMotion + 1;
      }
      amplitude, phase, complex := amplitudes, phases, complexes;
      frequency := inputFrequency;
      period := null;
      referencePoint := null;
      new;
      if LargeCount(inputFrequency[..]) > 3 {
        period := inputFrequency;
        CalculateFrequency(inputFrequency);
      } else {
        frequency := inputFrequency;
        CalculatePeriod(inputFrequency);
      }
    }

    method GetReferencePoint() returns (r: array?<real>)
      ensures r == referencePoint
    {
      return referencePoint;
    }

    method SetReferencePoint(inputReferencePoint: array?<real>)
      modifies this`referencePoint
      ensures referencePoint == inputReferencePoint
    {
      referencePoint := inputReferencePoint;
    }

    /** Replaces every amplitude and phase vector by a fresh one holding the
        modulus and the angle in degrees of the matching complex entry. The
        complex vectors are left as they are. */
    method CalculateAmplitudeAndPhase(m: MathFns)
      requires Valid()
      modifies this`amplitude, this`phase
      ensures Valid()
      ensures forall d :: 0 <= d < DOF ==>
        && fresh(amplitude[d]) && fresh(phase[d])
        && amplitude[d][..] == Amplitudes(m, complex[d][..])
        && phase[d][..] == Phases(m, complex[d][..])
      ensures Distinct(amplitude) && Distinct(phase) && Apart(amplitude, phase)
    {
      var iMotion := 0;
      while iMotion < DOF
        invariant 0 <= iMotion <= DOF
        invariant Valid()
        invariant forall d :: 0 <= d < iMotion ==>
          && fresh(amplitude[d]) && fresh(phase[d])
          && amplitude[d][..] == Amplitudes(m, complex[d][..])
          && phase[d][..] == Phases(m, complex[d][..])
        invariant forall d, e :: 0 <= d < e < iMotion ==> amplitude[d] != amplitude[e] && phase[d] != phase[e]
        invariant forall d, e :: 0 <= d < iMotion && 0 <= e < iMotion ==> amplitude[d] != phase[e]
      {
        var complex1Dof := complex[iMotion];
        var amplitude1Dof, phase1Dof := PolarVectors(m, complex1Dof, frequency.Length);
        assert complex1Dof[..frequency.Length] == complex1Dof[..];
        amplitude := amplitude[iMotion := amplitude1Dof];
        phase := phase[iMotion := phase1Dof];
        iMotion := iMotion + 1;
      }
    }

    /** Replaces every complex vector by a fresh one holding
        amplitude * (cos, sin)(phase in radians) entry by entry. The
        amplitude and phase vectors are left as they are. */
    method CalculateComplex(m: MathFns)
      requires Valid()
      modifies this`complex
      ensures Valid()
      ensures forall d :: 0 <= d < DOF ==>
        fresh(complex[d]) && complex[d][..] == FromPolar(m, amplitude[d][..], phase[d][..])
      ensures Distinct(complex)
    {
      var iMotion := 0;
      while iMotion < DOF
        invariant 0 <= iMotion <= DOF
        invariant Valid()
        invariant forall d :: 0 <= d < iMotion ==>
          fresh(complex[d]) && complex[d][..] == FromPolar(m, amplitude[d][..], phase[d][..])
        invariant forall d, e :: 0 <= d < e < iMotion ==> complex[d] != complex[e]
      {
        var amplitude1Dof := amplitude[iMotion];
        var phase1Dof := phase[iMotion];
        var complex1Dof := ComplexVector(m, amplitude1Dof, phase1Dof, frequency.Length);
        assert amplitude1Dof[..frequency.Length] == amplitude1Dof[..];
        assert phase1Dof[..frequency.Length] == phase1Dof[..];
        complex := complex[iMotion := complex1Dof];
        iMotion := iMotion + 1;
      }
    }

    /** Periods from frequencies; an empty input leaves period as it was. */
    method CalculatePeriod(inputFrequency: array<real>)
      requires NonZero(inputFrequency[..])
      modifies this`period
      ensures inputFrequency.Length == 0 ==> period == old(period)
      ensures inputFrequency.Length > 0 ==>
        fresh(period) && period[..] == TwoPiOver(inputFrequency[..])
    {
      if inputFrequency.Length > 0 {
        var p := new real[inputFrequency.Length];
        period := p;
        var iFreq := 0;
        while iFreq < inputFrequency.Length
          invariant 0 <= iFreq <= inputFrequency.Length
          invariant period == p
          invariant forall k :: 0 <= k < iFreq ==> p[k] == 2.0 * PI / inputFrequency[k]
        {
          p[iFreq] := 2.0 * PI / inputFrequency[iFreq];
          iFreq := iFreq + 1;
        }
      }
    }

    /** Frequencies from periods; an empty input leaves frequency as it was. */
    method CalculateFrequency(inputPeriod: array<real>)
      requires NonZero(inputPeriod[..])
      modifies this`frequency
      ensures inputPeriod.Length == 0 ==> frequency == old(frequency)
      ensures inputPeriod.Length > 0 ==>
        fresh(frequency) && frequency[..] == TwoPiOver(inputPeriod[..])
    {
      if inputPeriod.Length > 0 {
        var f := new real[inputPeriod.Length];
        frequency := f;
        var iFreq := 0;
        while iFreq < inputPeriod.Length
          invariant 0 <= iFreq <= inputPeriod.Length
          invariant frequency == f
          invariant forall k :: 0 <= k < iFreq ==> f[k] == 2.0 * PI / inputPeriod[k]
        {
          f[iFreq] := 2.0 * PI / inputPeriod[iFreq];
          iFreq := iFreq + 1;
        }
      }
    }
    /** new RAO(frequency) whose complex vectors are then replaced slot by
        slot by the given ones. */
    static method NewWithComplex(frequency: array<real>, vectors: seq<array<Complex>>) returns (newRAO: RAO)
      requires NonZero(frequency[..])
      requires |vectors| == DOF && forall d :: 0 <= d < DOF ==> vectors[d].Length == frequency.Length
      ensures fresh(newRAO) && newRAO.Valid()
      ensures newRAO.complex == vectors
      ensures newRAO.frequency.Length == frequency.Length
      ensures newRAO.AxesFrom(frequency)
      ensures LooksLikePeriods(frequency[..]) ==> fresh(newRAO.frequency)
      ensures !LooksLikePeriods(frequency[..]) && frequency.Length > 0 ==> fresh(newRAO.period)
      ensures forall d :: 0 <= d < DOF ==>
        && fresh(newRAO.amplitude[d]) && fresh(newRAO.phase[d])
        && (forall k :: 0 <= k < frequency.Length ==> newRAO.amplitude[d][k] == 0.0 && newRAO.phase[d][k] == 0.0)
      ensures Distinct(newRAO.amplitude) && Distinct(newRAO.phase) && Apart(newRAO.amplitude, newRAO.phase)
      ensures newRAO.referencePoint == null
    {
      newRAO := new RAO(frequency);
      // Rotational RAOs remain invariant with position.
      newRAO.complex := newRAO.complex[3 := vectors[3]];
      newRAO.complex := newRAO.complex[4 := vectors[4]];
      newRAO.complex := newRAO.complex[5 := vectors[5]];
      newRAO.complex := newRAO.complex[0 := vectors[0]];
      newRAO.complex := newRAO.complex[1 := vectors[1]];
      newRAO.complex := newRAO.complex[2 := vectors[2]];
      assert newRAO.complex == vectors;
    }

    /** new RAO(frequency) whose complex vectors are then replaced slot by
        slot by the given ones, whose amplitudes and phases are recomputed,
        and whose reference point is set: the assembly step of TransferRAO. */
    static method Assemble(m: MathFns, frequency: array<real>, vectors: seq<array<Complex>>,
                           TransferPoint: array<real>) returns (newRAO: RAO)
      requires NonZero(frequency[..])
      requires |vectors| == DOF && forall d :: 0 <= d < DOF ==> vectors[d].Length == frequency.Length
      ensures fresh(newRAO) && newRAO.Valid()
      ensures newRAO.complex == vectors
      ensures newRAO.frequency.Length == frequency.Length
      ensures newRAO.AxesFrom(frequency)
      ensures LooksLikePeriods(frequency[..]) ==> fresh(newRAO.frequency)
      ensures !LooksLikePeriods(frequency[..]) && frequency.Length > 0 ==> fresh(newRAO.period)
      ensures forall d :: 0 <= d < DOF ==>
        && fresh(newRAO.amplitude[d]) && fresh(newRAO.phase[d])
        && newRAO.amplitude[d][..] == Amplitudes(m, vectors[d][..])
        && newRAO.phase[d][..] == Phases(m, vectors[d][..])
      ensures Distinct(newRAO.amplitude) && Distinct(newRAO.phase) && Apart(newRAO.amplitude, newRAO.phase)
      ensures newRAO.referencePoint == TransferPoint
    {
      newRAO := NewWithComplex(frequency, vectors);
      newRAO.CalculateAmplitudeAndPhase(m);
      newRAO.referencePoint := TransferPoint;
    }

    /** The RAOs moved from ReferencePoint to TransferPoint. Records
        ReferencePoint as this RAO's reference point and changes nothing else
        of it. The result is built with RAO(frequency), so it reads this
        frequency axis as periods when LooksLikePeriods holds of it. Its
        rotations are this RAO's own complex vectors (shared, not copied);
        its translations are Translated by TransferPoint - ReferencePoint;
        its amplitudes and phases are derived from its complex vectors. */
    method TransferRAO(m: MathFns, ReferencePoint: array<real>, TransferPoint: array<real>)
      returns (newRAO: RAO)
      requires Valid()
      requires ReferencePoint.Length >= 3 && TransferPoint.Length >= 3
      modifies this`referencePoint
      ensures referencePoint == ReferencePoint
      ensures fresh(newRAO) && newRAO.Valid()
      ensures newRAO.frequency.Length == frequency.Length
      ensures newRAO.AxesFrom(frequency)
      ensures LooksLikePeriods(frequency[..]) ==> fresh(newRAO.frequency)
      ensures !LooksLikePeriods(frequency[..]) && frequency.Length > 0 ==> fresh(newRAO.period)
      ensures forall d :: 3 <= d < DOF ==> newRAO.complex[d] == complex[d]
      ensures forall j :: 0 <= j < 3 ==>
        && fresh(newRAO.complex[j])
        && newRAO.complex[j][..] == Translated(complex[j][..], complex[3][..], complex[4][..], complex[5][..],
                                               Offset(ReferencePoint[..], TransferPoint[..]), j)
      ensures forall d :: 0 <= d < DOF ==>
        && fresh(newRAO.amplitude[d]) && fresh(newRAO.phase[d])
        && newRAO.amplitude[d][..] == Amplitudes(m, newRAO.complex[d][..])
        && newRAO.phase[d][..] == Phases(m, newRAO.complex[d][..])
      ensures forall j, d :: 0 <= j < 3 && 0 <= d < DOF && j != d ==> newRAO.complex[j] != newRAO.complex[d]
      ensures Distinct(newRAO.amplitude) && Distinct(newRAO.phase) && Apart(newRAO.amplitude, newRAO.phase)
      ensures newRAO.referencePoint == TransferPoint
    {
      referencePoint := ReferencePoint;
      var diffPoint := [Complex(TransferPoint[0] - ReferencePoint[0], 0.0),
                        Complex(TransferPoint[1] - ReferencePoint[1], 0.0),
                        Complex(TransferPoint[2] - ReferencePoint[2], 0.0)];
      assert diffPoint == Offset(ReferencePoint[..], TransferPoint[..]);
      // The translated vectors are computed before the new RAO is built; the
      // original builds it in between, and neither step reads what the other
      // writes.
      var newSurge, newSway, newHeave := TranslatedVectors(complex, diffPoint, frequency.Length);
      newRAO := Assemble(m, frequency, [newSurge, newSway, newHeave, complex[3], complex[4], complex[5]], TransferPoint);
    }
  }
}
