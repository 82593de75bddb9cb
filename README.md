# RAO data model in Dafny

This project models the numerical core of a small C# library for Response
Amplitude Operators (RAOs) of a vessel, and proves properties of it:

- **`Rao`** (`rao.dfy`) — the class `RAO`: six degrees of freedom (surge,
  sway, heave, roll, pitch, yaw). Each holds an amplitude vector, a phase
  vector in degrees and a complex vector over a frequency axis.
  - The constructor guesses from its input whether it holds frequencies or
    periods.
  - Two passes convert between complex form and amplitude/phase.
  - `TransferRAO` moves the translational responses to another reference
    point with a cross product.
  - The class keeps its state in place: `frequency`, `period` and
    `referencePoint` are arrays, so the caller's arrays are shared as in the
    original. The per-degree-of-freedom vectors are arrays held in `seq`
    fields that the methods reassign slot by slot.
- **`RaoLaws`** (`rao_laws.dfy`) — lemmas about the specification functions
  the RAO contracts are written in.
- **`ComplexNumbers`** (`complex.dfy`) — the `Complex` struct as a datatype:
  - field-wise equality;
  - the unary and binary operators in complex and scalar forms;
  - division that returns the marker `(1e300, 1e300)` for a zero divisor;
  - the polar views `Modulus` and `Angle`.

  The setters of `Conjugate`, `Modulus` and `Angle` become functions
  (`WithConjugate`, `WithModulus`, `WithAngle`) that return the updated value,
  since a struct is a value.
- **`Interpolation`** (`interpolation.dfy`) — the four overloads of
  `Interpolation.Linear`.
  - "No value" (NaN) is `None`.
  - Reading past the end of an array (an `IndexOutOfRangeException`) is
    `IndexOutOfRange`.
- **`Vectors`** (`vectors.dfy`) — the part of the `Math2` vector library that
  `TransferRAO` uses: scaling, real points as complex vectors, and the
  standard cross product of 3-vectors.
- **`SystemMath`** (`system_math.dfy`) — `Math.PI` as the exact value of the
  double, and `Math.Sqrt`, `Math.Atan2`, `Math.Cos`, `Math.Sin` as a record of
  functions (`MathFns`) passed to the members that call them.
  - What these functions compute is stated by the ghost predicates
    `SqrtLaw`, `PythagorasLaw` and `PolarLaw`.
  - A lemma that depends on those facts requires the law it needs.
  - `PolarLaw` idealises cosine and sine at `Math.PI`: it takes them to be
    exactly −1 and 0. The double `Math.PI` is not π, and its true sine is
    about 1.22e-16, so no faithful real sine meets that clause. The lemmas
    that need it say so under "## Left out".
- **`Wrappers`** (`wrappers.dfy`) — `Option` and `Fallible`.

Doubles are modelled as reals, so every identity below holds exactly.

Because every bracket excludes its upper end, one might expect a query on the
last grid point of `Linear` to give NaN. The code instead reads
`xarray[Length]` and throws. The model follows the code (`Interpolation.LastPointExample`,
`Interpolation.FaultsFromLastPoint`).

`TransferRAO` builds its result with `new RAO(frequency)`, so the
frequency/period guess runs again on this RAO's frequency axis. If that axis
has more than three entries above 5 rad/s, the new RAO takes it for periods:
its `period` is this frequency array and its `frequency` is `2π / f`. The
contract of `Rao.RAO.TransferRAO` states this as written.

The constants are constants, not members, so the table below has no row of
their own. `Rao.DOF` and `Rao.Deg2Rad` are the `DOF` and `deg2rad` of
RAO.cs:54-55, and `RaoLaws.DegreesRoundTrip` is stated with `Deg2Rad`.
`SystemMath.PI` is `Math.PI`, used by `Rao.TwoPiOver` and `Complex.Angle`.
`ComplexNumbers.I` is `Complex.I` of Complex.cs:31-34, described by
`ComplexNumbers.ISquaredIsMinusOne`. `ComplexNumbers.Sentinel` is the
(1e300, 1e300) of Complex.cs:202, and `ComplexNumbers.DivisionByZeroIsSentinel`
is about it. The `Complex` datatype's constructor is the struct constructor of
Complex.cs:14-18.

## Model

| member | source | states |
|---|---|---|
| RaoLaws.LargeCountCountsLargeEntries | RAO.cs:121-122 | the count used by the constructor's guess is the number of positions whose entry is strictly greater than 5 |
| Rao.LargeCount | RAO.cs:121 | the length of `Array.FindAll(inputFrequency, x => x > 5)`, counted from the end; `LargeCountCountsLargeEntries` proves it is the number of entries above 5 |
| Rao.LooksLikePeriods | RAO.cs:121-122 | the constructor's test `matchedItems.Length > 3`; decided on the examples by `ProgramAxisIsPeriods` and `ThreeLargeEntriesAreFrequencies` |
| RaoLaws.LargeCountOfAppend | RAO.cs:121-122 | one more entry raises the count by one exactly when it is strictly greater than 5; an entry equal to 5 does not count |
| RaoLaws.ProgramAxisIsPeriods | Program.cs:19 | the demonstration axis 25, 24, 23, 22, 21 has five large entries and is read as periods |
| RaoLaws.ThreeLargeEntriesAreFrequencies | RAO.cs:121-131 | exactly three entries above 5 (plus entries equal to 5) are read as frequencies |
| Rao.TwoPiOver | RAO.cs:224 | every entry of the result times the matching input entry is 2π |
| RaoLaws.TwoPiOverInvolutive | RAO.cs:217-238 | 2π/x of a non-zero axis has no zero, and applying it twice gives the axis back, so period and frequency axes determine each other |
| Rao.RAO.constructor | RAO.cs:115-139 | `AxesFrom`: more than three entries above 5 make the input the `period` array and `frequency` a fresh `2π/x` axis; otherwise `frequency` is the input array, and `period` is a fresh `2π/x` axis (or stays null for an empty input); all 18 vectors are fresh, zero and as long as the frequency axis, and they are 18 different arrays (`Unshared`); the reference point is null |
| Rao.RAO.GetReferencePoint | RAO.cs:165 | returns the stored reference point |
| Rao.RAO.SetReferencePoint | RAO.cs:166 | stores the given reference point and changes nothing else |
| Rao.RAO.CalculatePeriod | RAO.cs:217-227 | an empty input leaves `period` as it was; otherwise `period` becomes a fresh array equal to `2π/x` of the input; nothing else changes |
| Rao.RAO.CalculateFrequency | RAO.cs:228-238 | an empty input leaves `frequency` as it was; otherwise `frequency` becomes a fresh array equal to `2π/x` of the input; nothing else changes |
| Rao.Amplitudes | RAO.cs:183 | entry k is the modulus of complex entry k |
| Rao.Phases | RAO.cs:184 | entry k is the angle of complex entry k, in degrees |
| Rao.FromPolar | RAO.cs:205-207 | entry k is amplitude k times (cos, sin) of phase k in radians |
| Rao.PolarValue | RAO.cs:205-207 | amplitude · (cos, sin) of the phase converted with `deg2rad`; `PolarRoundTrip` and `AmplitudeRoundTrip` prove it inverts `Modulus` and `Angle` |
| Rao.PolarVectors | RAO.cs:177-185 | two different fresh amplitude and phase vectors equal to `Amplitudes` and `Phases` of the complex vector |
| Rao.RAO.CalculateAmplitudeAndPhase | RAO.cs:169-189 | every amplitude and phase vector is replaced by a fresh one equal to `Amplitudes`/`Phases` of the matching complex vector, and the twelve new vectors are different arrays; the complex vectors and the frequency axis are untouched; the lengths invariant is kept |
| Rao.ComplexVector | RAO.cs:201-208 | a fresh complex vector equal to `FromPolar` of the amplitude and phase vectors |
| Rao.RAO.CalculateComplex | RAO.cs:190-216 | every complex vector is replaced by a fresh one equal to `FromPolar` of the matching amplitude and phase vectors, and the six new vectors are different arrays; the amplitudes and phases are untouched; the lengths invariant is kept |
| RaoLaws.PolarRoundTrip | RAO.cs:169-216 | under the square-root and polar laws, `CalculateComplex` after `CalculateAmplitudeAndPhase` reproduces every complex value |
| RaoLaws.AmplitudeRoundTrip | RAO.cs:169-216 | under the square-root and Pythagoras laws, `CalculateAmplitudeAndPhase` after `CalculateComplex` reproduces every non-negative amplitude |
| RaoLaws.ZeroComplexHasZeroPolar | RAO.cs:183-184 | a zero complex value gets amplitude 0 and phase 0 |
| RaoLaws.ZeroAmplitudeIsZeroComplex | RAO.cs:205-207 | a zero amplitude gives a zero complex value, whatever the phase |
| RaoLaws.DegreesRoundTrip | RAO.cs:55 | converting radians to degrees with `deg2rad` and back is exact |
| Rao.Offset | RAO.cs:244-247 | the offset is TransferPoint − ReferencePoint as a real complex 3-vector |
| Rao.Translated | RAO.cs:263-273 | entry k plus component j of the cross product of the rotations in radians with the offset; `TransferGains` writes the components out, and `SamePointKeepsTranslations` and `TransferThereAndBack` are proved about it |
| Rao.TranslatedVectors | RAO.cs:251-274 | three different fresh surge, sway and heave vectors equal to `Translated` of the old ones by the offset |
| Rao.RAO.NewWithComplex | RAO.cs:255-259 | a fresh RAO built from this frequency axis: its axes are `AxesFrom` the axis (guess re-run, fresh derived axis, null period for an empty axis); its complex slots are the given vectors; its amplitude and phase vectors are twelve different fresh zero arrays; its reference point is null |
| Rao.RAO.Assemble | RAO.cs:255-281 | as `NewWithComplex` for the axes and complex slots, then twelve different fresh amplitude and phase arrays equal to `Amplitudes`/`Phases` of the complex vectors, then the reference point set |
| Rao.RAO.TransferRAO | RAO.cs:240-282 | only `referencePoint` of this RAO changes, to ReferencePoint; the result is fresh and valid; its axes are `AxesFrom` this frequency axis (the constructor's guess re-run, with a fresh derived axis, or no period for an empty axis); its rotational vectors 3-5 are this RAO's own arrays (shared); its translational vectors are fresh, equal to `Translated` by TransferPoint − ReferencePoint, and no two slots share them; its twelve amplitude and phase arrays are fresh, different, and derived from its complex vectors; its reference point is TransferPoint |
| RaoLaws.TransferGains | RAO.cs:261-278 | surge gains r1·d2 − r2·d1, sway r2·d0 − r0·d2, heave r0·d1 − r1·d0, with r the rotations in radians and d the offset |
| RaoLaws.SamePointKeepsTranslations | RAO.cs:244-278 | a zero offset leaves surge, sway and heave unchanged |
| RaoLaws.TransferThereAndBack | RAO.cs:244-278 | moving from a to b and back from b to a, with the same rotations, restores the translations |
| Vectors.Scale | RAO.cs:270 | every entry is multiplied by the real factor |
| Vectors.RealPoint | RAO.cs:244-247 | the complex vector has the given real parts and zero imaginary parts |
| Vectors.Cross | RAO.cs:268-273 | the standard cross product of complex 3-vectors; `CrossWithRealPoint`, `CrossWithOrigin` and `CrossWithOppositePoint` are proved about it |
| Vectors.MulByRealPart | RAO.cs:270-273 | a complex product with a real point is scaling by its real part |
| Vectors.CrossWithRealPoint | RAO.cs:270-273 | the cross product with a real point has the textbook components |
| Vectors.CrossWithOrigin | RAO.cs:270-273 | the cross product with the origin is zero |
| Vectors.CrossWithOppositePoint | RAO.cs:270-273 | reversing the real point reverses the cross product |
| Vectors.MulRealByOpposite | Complex.cs:187-190 | scaling by −d is the negation of scaling by d |
| ComplexNumbers.Complex.WithConjugate | Complex.cs:36-40 | after `Conjugate = value` the conjugate of the struct is `value` |
| ComplexNumbers.Complex.Conjugate | Complex.cs:36-38 | the mirror image (re, −im); `ConjugateInvolutive` proves conjugating twice is the identity |
| ComplexNumbers.ISquaredIsMinusOne | Complex.cs:31-34 | `I` = (0, 1) squares to −1 and, under the square-root law, has modulus 1 |
| ComplexNumbers.ConjugateInvolutive | Complex.cs:36-40 | the conjugate is (re, −im), and conjugating twice gives the value back |
| ComplexNumbers.Complex.Modulus | Complex.cs:42-44 | under the square-root law the modulus is non-negative and its square is re² + im² |
| ComplexNumbers.Complex.WithModulus | Complex.cs:45-59 | the origin becomes (value, 0); any other value has both parts scaled by value / modulus; `WithModulusSetsModulus` proves the new modulus and direction |
| ComplexNumbers.ModulusPositive | Complex.cs:42-44 | a non-zero value has a positive modulus |
| ComplexNumbers.SquaredModulusIsNorm | Complex.cs:204 | the divisor's squared modulus is re² + im², and it is non-zero for a non-zero divisor |
| ComplexNumbers.WithModulusSetsModulus | Complex.cs:45-59 | setting the modulus of the origin gives (value, 0); a non-negative value becomes the new modulus, and a non-zero value keeps its direction (same quadrant, parallel) |
| ComplexNumbers.Complex.Angle | Complex.cs:62-75 | π on the negative real axis, 0 on the rest of the real axis, atan2(im, re) off the axis |
| ComplexNumbers.PolarForm | Complex.cs:42-75 | under the square-root and polar laws, modulus·(cos, sin)(angle) is the value itself |
| ComplexNumbers.PolarFormOffAxis | Complex.cs:74 | the polar form off the real axis |
| ComplexNumbers.PolarFormOnAxis | Complex.cs:66-73 | the polar form on the real axis, where the angle is π or 0 |
| ComplexNumbers.ZeroHasNoModulusOrAngle | Complex.cs:42-75 | zero has modulus 0 and angle 0 |
| ComplexNumbers.WithAngleKeepsModulus | Complex.cs:76-81 | setting the angle keeps the modulus |
| ComplexNumbers.Complex.WithAngle | Complex.cs:76-81 | (cos value · modulus, sin value · modulus) with the modulus read first; `WithAngleKeepsModulus` proves the modulus is kept |
| ComplexNumbers.EqualityIsFieldwise | Complex.cs:116-134 | `Equals`/`==` hold exactly when both fields are equal, and `!=` is their negation |
| ComplexNumbers.Complex.Equals | Complex.cs:116-119 | both parts equal, with no tolerance; `EqualityIsFieldwise` proves it is equality of values |
| ComplexNumbers.Complex.NotEquals | Complex.cs:131-134 | the negation of `Equals`; `EqualityIsFieldwise` proves it is inequality of values |
| ComplexNumbers.UnaryLaws | Complex.cs:138-168 | unary + is the identity, unary − undoes itself, c − c and c + (−c) are zero |
| ComplexNumbers.Plus | Complex.cs:138-141 | unary +: the value itself (`UnaryLaws`) |
| ComplexNumbers.Negate | Complex.cs:143-146 | unary −: both parts negated; `UnaryLaws` proves it undoes itself and cancels addition |
| ComplexNumbers.ArithmeticLaws | Complex.cs:149-195 | + and * commute; adding or subtracting a real changes only the real part; multiplying by a real scales both parts in either operand order |
| ComplexNumbers.Add | Complex.cs:149-152 | part-wise sum; commutative (`ArithmeticLaws`) |
| ComplexNumbers.AddReal | Complex.cs:154-157 | the real is added to the real part only (`ArithmeticLaws`) |
| ComplexNumbers.RealAdd | Complex.cs:159-162 | the same as `AddReal` with the operands swapped (`ArithmeticLaws`) |
| ComplexNumbers.Sub | Complex.cs:165-168 | part-wise difference; c − c is zero (`UnaryLaws`) |
| ComplexNumbers.SubReal | Complex.cs:170-173 | the real is subtracted from the real part only (`ArithmeticLaws`) |
| ComplexNumbers.RealSub | Complex.cs:175-178 | d − c is the negation of c − d (`ArithmeticLaws`) |
| ComplexNumbers.Mul | Complex.cs:181-185 | the complex product; commutative (`ArithmeticLaws`), undone by `Div` (`DivUndoesMul`) |
| ComplexNumbers.MulReal | Complex.cs:187-190 | both parts scaled; the same as a product with (d, 0) (`ArithmeticLaws`) |
| ComplexNumbers.RealMul | Complex.cs:192-195 | the same as `MulReal` with the operands swapped (`ArithmeticLaws`) |
| ComplexNumbers.Div | Complex.cs:198-207 | a zero divisor gives the marker (1e300, 1e300) |
| ComplexNumbers.DivReal | Complex.cs:209-216 | a zero divisor gives the marker (1e300, 1e300) |
| ComplexNumbers.RealDiv | Complex.cs:218-226 | a zero divisor gives the marker (1e300, 1e300) |
| ComplexNumbers.DivisionByZeroIsSentinel | Complex.cs:198-226 | all three divisions by zero give exactly the marker, whatever the numerator |
| ComplexNumbers.DivUndoesMul | Complex.cs:181-207 | under the square-root law, (c1 / c2) · c2 == c1 for a non-zero c2 |
| ComplexNumbers.DivSelfIsOne | Complex.cs:198-207 | a non-zero value divided by itself is 1 |
| ComplexNumbers.RealDivUndoesMul | Complex.cs:218-226 | (d / c2) · c2 == d for a non-zero c2 |
| ComplexNumbers.DivRealUndoesMulReal | Complex.cs:209-216 | (c / d) · d == c for a non-zero real d |
| Interpolation.LastMatch | Interpolation.cs:13-20 | the last of the first n segments that brackets x, or none when none of them does |
| Interpolation.FaultsAt | Interpolation.cs:15-17 | iteration i reads past an array: `xarray[i + 1]` at the last grid point once x ≥ xs[i], or `yarray[i + 1]` inside a bracket with no second sample |
| Interpolation.Interpolate | Interpolation.cs:10-22 | a fault when some iteration faults; otherwise the line through the last bracketing segment, or no value; `Linear` is proved equal to it and the lemmas below are about it |
| Interpolation.Linear | Interpolation.cs:10-22 | the result is `Interpolate` of the two arrays: a fault when an iteration reads past an array, otherwise the line through the last bracketing segment, or no value |
| Interpolation.SafeBelowLastPoint | Interpolation.cs:13-17 | with at least as many samples as grid points and x below the last grid point, nothing is read out of range |
| Interpolation.FaultsFromLastPoint | Interpolation.cs:13-15 | at or beyond the last grid point the call throws instead of returning NaN |
| Interpolation.FaultsOnMissingSample | Interpolation.cs:15-17 | a bracketing segment without its second sample throws |
| Interpolation.NoValueBelowGrid | Interpolation.cs:12-21 | below the first point of an ascending grid, or on an empty grid, there is no value: no extrapolation |
| Interpolation.UniqueBracket | Interpolation.cs:15-18 | on an ascending grid the bracketing segment's line is the result |
| Interpolation.KnotValue | Interpolation.cs:15-18 | at a grid point that starts a segment the result is its sample |
| Interpolation.LineBetween | Interpolation.cs:17-18 | the line at an x inside the bracket lies between its two samples |
| Interpolation.FractionInUnit | Interpolation.cs:17-18 | the covered fraction of a bracket lies in [0, 1) |
| Interpolation.FractionBetween | Interpolation.cs:17-18 | going a fraction in [0, 1) from one sample to the other stays between them |
| Interpolation.BetweenEndpoints | Interpolation.cs:15-18 | on an ascending grid a matched result lies between ys[i] and ys[i + 1] |
| Interpolation.LastBracketWins | Interpolation.cs:13-20 | with no break, the last bracketing segment determines the result |
| Interpolation.NonAscendingExample | Interpolation.cs:13-20 | on the grid 0, 2, 1, 3 the query 1.5 takes the later segment (150, not 15) |
| Interpolation.HeadingExample | Interpolation.cs:10-22 | the driver's headings 0, 15, 30 at 7.5 give the midpoint of the first two samples |
| Interpolation.LastPointExample | Interpolation.cs:13-15 | the query 2.0 on the grid 0, 1, 2 throws |
| Interpolation.OutcomeIgnoresSampleValues | Interpolation.cs:13-20 | whether the call throws and whether it has a value depends only on the grid, the query and the number of samples |
| Interpolation.ScaleByFraction | Interpolation.cs:17-18 | the line moves from the first sample by the covered fraction of the sample difference |
| Interpolation.InterpolateAll | Interpolation.cs:24-32 | a fault exactly when some query faults; otherwise one result per query, each the scalar result |
| Interpolation.LinearAll | Interpolation.cs:24-32 | a fresh array equal to `InterpolateAll` of the queries, or the fault |
| Interpolation.AllSafeBelowLastPoint | Interpolation.cs:24-32 | queries below the last grid point with enough samples give one value per query |
| Interpolation.Reals | Interpolation.cs:39-43 | the real parts of the samples, in order |
| Interpolation.Imags | Interpolation.cs:39-43 | the imaginary parts of the samples, in order |
| Interpolation.InterpolateComplex | Interpolation.cs:34-46 | the real channel is interpolated first, then the imaginary one, and the first fault wins; `ComplexChannelsAgree` and `ComplexSegment` are proved about it |
| Interpolation.LinearComplex | Interpolation.cs:34-46 | the result is `InterpolateComplex`: each channel interpolated separately |
| Interpolation.ComplexChannelsAgree | Interpolation.cs:34-46 | the two channels fault together and have a value together, and the result is made of the two channel results |
| Interpolation.ComplexSegment | Interpolation.cs:34-46 | on an ascending grid the complex result is ys[i] + (ys[i+1] − ys[i])·t, with t the covered fraction of the bracket |
| Interpolation.ChannelSegments | Interpolation.cs:44 | each channel's segment is the line through that channel's samples |
| Interpolation.ComplexLine | Complex.cs:149-190 | the complex line from a towards b, part by part |
| Interpolation.ComplexKnotValue | Interpolation.cs:34-46 | at a grid point that starts a segment the complex result is its sample |
| Interpolation.InterpolateComplexAll | Interpolation.cs:48-56 | a fault exactly when some query faults; otherwise one complex result per query |
| Interpolation.LinearComplexAll | Interpolation.cs:48-56 | a fresh array equal to `InterpolateComplexAll` of the queries, or the fault |
| SystemMath.SqrtOfSquare | Complex.cs:44 | under the square-root law, the square root of v² is v for v ≥ 0 |
| SystemMath.Sqrt | Complex.cs:44 | `Math.Sqrt`, taken from the `MathFns` record; `SqrtLaw` states what it computes |
| SystemMath.Atan2 | Complex.cs:74 | `Math.Atan2(y, x)`, taken from the record; `PolarLaw` states what it computes |
| SystemMath.Cos | RAO.cs:206 | `Math.Cos`, taken from the record; `PythagorasLaw` and `PolarLaw` state what it computes |
| SystemMath.Sin | RAO.cs:207 | `Math.Sin`, taken from the record; `PythagorasLaw` and `PolarLaw` state what it computes |

## Left out

- Transcendental complex functions (`Sqrt`, `Exp`, `Pow`, `Log`, trigonometric, hyperbolic and their inverses): floating-point identities with branch cuts that the RAO code does not use.
- `GetHashCode` depends on the bit patterns of doubles. `ToString` is string formatting.
- `Equals(object)` is not modelled: Dafny has no boxing. `Equals(Complex)` is modelled.
- The static helpers `Conj`, `Re`, `Im`, `Mod` and `Arg` only forward to the members above.
- IEEE-754 behaviour is not modelled: no rounding, infinities or NaN payloads. Doubles are reals.
- CalculatePeriod: requires a frequency axis without zeros, because `2π/0` is an IEEE infinity that reals do not have.
- CalculateFrequency: requires a period axis without zeros, for the same reason.
- Rao.RAO.constructor: requires an input without zeros, for the same reason.
- TransferRAO: requires both points to have at least three coordinates. With fewer, the original throws when it reads a missing coordinate.
- TransferRAO: the translated vectors are computed before `new RAO(frequency)` runs, not after. Neither step reads what the other writes.
- Rao.RAO.constructor: allocates the zero vectors before it chooses between frequencies and periods, not after. The length is the same either way.
- The outer `VectorR[]`/`VectorC[]` arrays of six vectors are `seq` fields that the methods reassign. Aliasing of those outer arrays by callers is not captured. The inner vectors are arrays, and their sharing is captured.
- The property accessors `Frequency`, `Period`, `Heading`, `Amplitude`, `Phase` and `Complex`, and `GetFrequency`/`GetPeriod`, only read or write a field. `TransferRAO` writes the `Complex` slots directly.
- `heading` is never assigned by the code shown, and the constructors and printing routines that are commented out are left out.
- Program.cs is a console driver. Only its inputs appear, as the examples `RaoLaws.ProgramAxisIsPeriods` and `Interpolation.HeadingExample`.
- The `Math2` library is not part of this model. Only the standard meanings of vector scaling and of the 3-vector cross product are used.
- `Math.Sqrt`, `Math.Atan2`, `Math.Cos` and `Math.Sin` are parameters. Properties that depend on them require the matching law.
- Phases: a phase recovered by `CalculateAmplitudeAndPhase` after `CalculateComplex` is not shown to equal the original phase. The original phase is only determined modulo 360°, and the range of `atan2` is not modelled.
- Interpolation: no value (NaN) in the complex overload is `None` for the pair. The two channels never differ in whether they have a value (`Interpolation.ComplexChannelsAgree`), so a pair with one NaN part does not arise.
- Interpolation: null arrays are not modelled. Dafny arrays are never null.
- PolarRoundTrip: holds under `PolarLaw`, which idealises `Math.Cos` and `Math.Sin` at `Math.PI`. In the original, a negative real entry gets the angle `Math.PI`, and `CalculateComplex` then gives it an imaginary part of about amplitude · 1.22e-16 instead of 0.
- ComplexNumbers.PolarForm: holds under the same idealisation. On the negative real axis, modulus · sin(`Math.PI`) is not exactly 0 for the double `Math.PI`.
- ComplexNumbers.PolarFormOnAxis: the negative real axis case rests on the same idealisation of `Math.Sin(Math.PI)` and `Math.Cos(Math.PI)`.
- CalculateAmplitudeAndPhase: requires `Valid()`, so every complex vector is exactly as long as the frequency axis. The public `Complex` setter of the original accepts other lengths. The original then reads only the first `frequency.Length` entries of a longer vector, and throws `IndexOutOfRangeException` on a shorter one. Neither case is modelled.
- CalculateComplex: requires `Valid()`, so every amplitude and phase vector is exactly as long as the frequency axis. The public `Amplitude` and `Phase` setters accept other lengths. The original then reads only the first `frequency.Length` entries of a longer vector, and throws on a shorter one. Neither case is modelled.
- TransferRAO: requires `Valid()`, so every complex vector is exactly as long as the frequency axis. A longer vector would have only its first `frequency.Length` entries translated. A shorter one makes the original throw. Neither case is modelled.
