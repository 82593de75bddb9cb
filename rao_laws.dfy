/** What the RAO operations promise, stated over the specification functions
    of module Rao that their contracts are written in. */
module RaoLaws {
  import opened SystemMath
  import opened ComplexNumbers
  import opened Vectors
  import opened Rao

  // The frequency/period heuristic

  /** LargeCount is the number of positions holding an entry strictly
      greater than 5. */
  lemma {:induction false} LargeCountCountsLargeEntries(xs: seq<real>)
    ensures LargeCount(xs) == |set i | 0 <= i < |xs| && xs[i] > 5.0|
  {
    if xs != [] {
      var n := |xs| - 1;
      var prefix := xs[..n];
      LargeCountCountsLargeEntries(prefix);
      var before := set i | 0 <= i < |prefix| && prefix[i] > 5.0;
      var after := set i | 0 <= i < |xs| && xs[i] > 5.0;
      if xs[n] > 5.0 {
        assert after == before + {n};
        assert n !in before;
      } else {
        assert after == before;
      }
    }
  }

  /** Appending an entry raises the count by one exactly when the entry is
      strictly greater than 5; an entry equal to 5 does not count. */
  lemma LargeCountOfAppend(xs: seq<real>, x: real)
    ensures LargeCount(xs + [x]) == LargeCount(xs) + (if x > 5.0 then 1 else 0)
    ensures x <= 5.0 ==> LargeCount(xs + [x]) == LargeCount(xs)
  {
    assert (xs + [x])[..|xs|] == xs;
  }

  /** The frequency axis of the demonstration program, 25 down to 21, is
      read as periods. */
  lemma ProgramAxisIsPeriods()
    ensures LargeCount([25.0, 24.0, 23.0, 22.0, 21.0]) == 5
    ensures LooksLikePeriods([25.0, 24.0, 23.0, 22.0, 21.0])
  {
    LargeCountOfAppend([], 25.0);
    assert [] + [25.0] == [25.0];
    LargeCountOfAppend([25.0], 24.0);
    assert [25.0] + [24.0] == [25.0, 24.0];
    LargeCountOfAppend([25.0, 24.0], 23.0);
    assert [25.0, 24.0] + [23.0] == [25.0, 24.0, 23.0];
    LargeCountOfAppend([25.0, 24.0, 23.0], 22.0);
    assert [25.0, 24.0, 23.0] + [22.0] == [25.0, 24.0, 23.0, 22.0];
    LargeCountOfAppend([25.0, 24.0, 23.0, 22.0], 21.0);
    assert [25.0, 24.0, 23.0, 22.0] + [21.0] == [25.0, 24.0, 23.0, 22.0, 21.0];
  }

  /** Three entries above 5 are not enough, and entries equal to 5 do not
      count: such an axis is read as frequencies. */
  lemma ThreeLargeEntriesAreFrequencies()
    ensures LargeCount([6.0, 7.0, 8.0, 5.0, 5.0]) == 3
    ensures !LooksLikePeriods([6.0, 7.0, 8.0, 5.0, 5.0])
  {
    LargeCountOfAppend([], 6.0);
    assert [] + [6.0] == [6.0];
    LargeCountOfAppend([6.0], 7.0);
    assert [6.0] + [7.0] == [6.0, 7.0];
    LargeCountOfAppend([6.0, 7.0], 8.0);
    assert [6.0, 7.0] + [8.0] == [6.0, 7.0, 8.0];
    LargeCountOfAppend([6.0, 7.0, 8.0], 5.0);
    assert [6.0, 7.0, 8.0] + [5.0] == [6.0, 7.0, 8.0, 5.0];
    LargeCountOfAppend([6.0, 7.0, 8.0, 5.0], 5.0);
    assert [6.0, 7.0, 8.0, 5.0] + [5.0] == [6.0, 7.0, 8.0, 5.0, 5.0];
  }

  // Periods and frequencies

  /** Cancelling a non-zero factor. */
  lemma CancelFactor(a: real, b: real, c: real, q: real)
    requires c != 0.0
    requires a * c == q && b * c == q
    ensures a == b
  {
    assert (a - b) * c == 0.0;
  }

  /** 2 pi / x never yields zero, and applying it twice gives the axis back:
      the period axis of a frequency axis has that frequency axis as its own
      frequency axis. */
  lemma TwoPiOverInvolutive(xs: seq<real>)
    requires NonZero(xs)
    ensures NonZero(TwoPiOver(xs))
    ensures TwoPiOver(TwoPiOver(xs)) == xs
  {
    var ys := TwoPiOver(xs);
    forall i | 0 <= i < |xs| ensures ys[i] != 0.0 {
      assert ys[i] * xs[i] == 2.0 * PI;
    }
    var zs := TwoPiOver(ys);
    forall i | 0 <= i < |xs| ensures zs[i] == xs[i] {
      assert zs[i] * ys[i] == 2.0 * PI;
      assert ys[i] * xs[i] == 2.0 * PI;
      CancelFactor(zs[i], xs[i], ys[i], 2.0 * PI);
    }
  }

  // Complex form versus amplitude and phase

  /** Converting radians to degrees and back is exact over the reals. */
  lemma DegreesRoundTrip(angle: real)
    ensures (angle / Deg2Rad) * Deg2Rad == angle
  {
  }

  /** CalculateComplex after CalculateAmplitudeAndPhase gives back the complex
      values: amplitude and phase are the polar form of each value. */
  lemma PolarRoundTrip(m: MathFns, cs: seq<Complex>)
    requires SqrtLaw(m) && PolarLaw(m)
    ensures FromPolar(m, Amplitudes(m, cs), Phases(m, cs)) == cs
  {
    var amps, phases := Amplitudes(m, cs), Phases(m, cs);
    forall k | 0 <= k < |cs| ensures PolarValue(m, amps[k], phases[k]) == cs[k] {
      PolarForm(m, cs[k]);
      DegreesRoundTrip(cs[k].Angle(m));
    }
  }

  /** CalculateAmplitudeAndPhase after CalculateComplex gives back
      non-negative amplitudes. */
  lemma AmplitudeRoundTrip(m: MathFns, amps: seq<real>, phases: seq<real>)
    requires SqrtLaw(m) && PythagorasLaw(m)
    requires |amps| == |phases|
    requires forall k :: 0 <= k < |amps| ==> 0.0 <= amps[k]
    ensures Amplitudes(m, FromPolar(m, amps, phases)) == amps
  {
    var cs := FromPolar(m, amps, phases);
    forall k | 0 <= k < |amps| ensures cs[k].Modulus(m) == amps[k] {
      var t := phases[k] * Deg2Rad;
      RotatedNorm(Cos(m, t), Sin(m, t), amps[k]);
      SqrtOfSquare(m, amps[k], cs[k].Norm());
    }
  }

  /** A zero complex value has amplitude 0 and phase 0. */
  lemma ZeroComplexHasZeroPolar(m: MathFns, cs: seq<Complex>)
    requires SqrtLaw(m)
    ensures forall k :: 0 <= k < |cs| && cs[k] == Zero ==>
      Amplitudes(m, cs)[k] == 0.0 && Phases(m, cs)[k] == 0.0
  {
    ZeroHasNoModulusOrAngle(m);
    ZeroDegrees(Zero.Angle(m));
  }

  lemma ZeroDegrees(angle: real)
    requires angle == 0.0
    ensures angle / Deg2Rad == 0.0
  {
  }

  /** A zero amplitude gives a zero complex value, whatever the phase. */
  lemma ZeroAmplitudeIsZeroComplex(m: MathFns, amps: seq<real>, phases: seq<real>)
    requires |amps| == |phases|
    ensures forall k :: 0 <= k < |amps| && amps[k] == 0.0 ==> FromPolar(m, amps, phases)[k] == Zero
  {
  }

  // Moving the reference point

  /** Each translational entry gains the matching component of
      rotation x offset, written out: surge gains r1 d2 - r2 d1, sway
      r2 d0 - r0 d2, heave r0 d1 - r1 d0, with r the rotations in radians
      and d = transfer - reference. */
  lemma TransferGains(trans: seq<Complex>, roll: seq<Complex>, pitch: seq<Complex>, yaw: seq<Complex>,
                      reference: seq<real>, transfer: seq<real>, k: nat)
    requires |roll| == |trans| && |pitch| == |trans| && |yaw| == |trans|
    requires |reference| >= 3 && |transfer| >= 3
    requires k < |trans|
    ensures
      var d0, d1, d2 := transfer[0] - reference[0], transfer[1] - reference[1], transfer[2] - reference[2];
      var r0, r1, r2 := MulReal(roll[k], Deg2Rad), MulReal(pitch[k], Deg2Rad), MulReal(yaw[k], Deg2Rad);
      var offset := Offset(reference, transfer);
      && Translated(trans, roll, pitch, yaw, offset, 0)[k] == Add(trans[k], Sub(MulReal(r1, d2), MulReal(r2, d1)))
      && Translated(trans, roll, pitch, yaw, offset, 1)[k] == Add(trans[k], Sub(MulReal(r2, d0), MulReal(r0, d2)))
      && Translated(trans, roll, pitch, yaw, offset, 2)[k] == Add(trans[k], Sub(MulReal(r0, d1), MulReal(r1, d0)))
  {
    var d := [transfer[0] - reference[0], transfer[1] - reference[1], transfer[2] - reference[2]];
    CrossWithRealPoint(Scale([roll[k], pitch[k], yaw[k]], Deg2Rad), d);
  }

  /** Moving to the same point changes no translation. */
  lemma SamePointKeepsTranslations(trans: seq<Complex>, roll: seq<Complex>, pitch: seq<Complex>, yaw: seq<Complex>,
                                   p: seq<real>, j: nat)
    requires |roll| == |trans| && |pitch| == |trans| && |yaw| == |trans|
    requires |p| >= 3 && j < 3
    ensures Translated(trans, roll, pitch, yaw, Offset(p, p), j) == trans
  {
    var offset := Offset(p, p);
    assert offset == RealPoint([0.0, 0.0, 0.0]);
    var r := Translated(trans, roll, pitch, yaw, offset, j);
    forall k | 0 <= k < |trans| ensures r[k] == trans[k] {
      CrossWithOrigin(Scale([roll[k], pitch[k], yaw[k]], Deg2Rad));
    }
  }

  /** Moving from a to b and then from b back to a, with the same rotations,
      gives the original translations back. */
  lemma TransferThereAndBack(trans: seq<Complex>, roll: seq<Complex>, pitch: seq<Complex>, yaw: seq<Complex>,
                             a: seq<real>, b: seq<real>, j: nat)
    requires |roll| == |trans| && |pitch| == |trans| && |yaw| == |trans|
    requires |a| >= 3 && |b| >= 3 && j < 3
    ensures Translated(Translated(trans, roll, pitch, yaw, Offset(a, b), j), roll, pitch, yaw, Offset(b, a), j) == trans
  {
    var d := [b[0] - a[0], b[1] - a[1], b[2] - a[2]];
    assert Offset(a, b) == RealPoint(d);
    assert Offset(b, a) == RealPoint([-d[0], -d[1], -d[2]]);
    var there := Translated(trans, roll, pitch, yaw, Offset(a, b), j);
    var back := Translated(there, roll, pitch, yaw, Offset(b, a), j);
    forall k | 0 <= k < |trans| ensures back[k] == trans[k] {
      CrossWithOppositePoint(Scale([roll[k], pitch[k], yaw[k]], Deg2Rad), d);
    }
  }
}
