# ProfileGenerator: Bezier curves and differential-drive trajectories

This project models in Dafny two parts of the ProfileGenerator path planner.

**Bezier curves** (`math/BezierCurve.java`, modules `BezierMath` and `Bezier`):

- A curve keeps its control points and copies their x and y coordinates into two arrays.
- It evaluates a point with de Casteljau's algorithm, collapsing copies of those arrays in place.
- It builds its derivative curve on first use and caches it. The derivative has one point fewer, and its point `i` is `(P[i+1] - P[i]) * (n - 1)`.
- The public constructor builds the arc-length table eagerly. A derivative curve builds its table only when first asked for it.
- Curvature needs the first and the second derivative curve. On a curve of one or two points one of them is `null`.

**Trajectory synthesis** (`pathing/Path.java`, module `Pathing`):

- `getTrajectoryPoints` samples a centerline motion profile at a fixed interval and moves a cursor along the path's segments.
- For every accepted sample it writes one point for the left wheel and one for the right wheel of a differential-drive vehicle.
- A sample on a straight stretch (`|curvature| < 1e-20`) copies the centerline step, velocity and acceleration. On a turn of radius `r` they are scaled by `|r - w/2| / |r|` for the left wheel and by `|r + w/2| / |r|` for the right.
- The loop breaks off when the profile has no state for a sample, or when a sample runs past the last segment. The remaining slots stay `null`.
- A segment's curvature query can throw. A `BezierCurve` segment of two points does, through `curvature`. The exception then ends `getTrajectoryPoints`.

Java `double`s are modelled as `real`. Java exceptions are modelled as `Result` values: `Err(NullDereference)`, `Err(IndexOutOfBounds)` or `Err(NegativeArraySize)`. A `null` array slot is `None`.

**How the trajectory loop is specified.** Two functions give its outcome as a function of the path:

- `Run(path, inc, n)` gives the loop's control state after the iterations for samples `1 .. n-1` (the loop with `pointCount == n`): the segment cursor, the number of filled slots, whether the loop ended early, and the exception that ended it, if any.
- `Point` gives the value of slot `j` of either wheel.

The imperative method `GetTrajectoryPoints` is proved equal, slot by slot, to those functions. Separate lemmas prove what the design promises:

- on a straight path both wheels follow the centerline and agree;
- on any path within the track width, the wheels' midpoint follows the centerline;
- on a turn whose radius is at least half the track width, the wheels' velocities differ by the curvature times the track width times the centerline velocity.

**How the curve algorithms are specified.** They are proved against the polynomial functions of `BezierMath`: the de Casteljau triangle (`Level`, `DeCasteljau`, `Evaluate`) and the derivative polygon (`DerivativePoints`). Lemmas about those functions cover:

- end-point interpolation;
- the convex-hull bound;
- subdivision;
- linearity;
- the hodograph identity.

## Model

| member | source | states |
|---|---|---|
| `Bezier.BezierCurve.CopyCoordinates` | ProfileGenerator/src/math/BezierCurve.java:31-36 | the two new arrays have one slot per control point, and slot `i` holds point `i`'s x (y) |
| `Bezier.BezierCurve.Create` | ProfileGenerator/src/math/BezierCurve.java:22-24 | the public constructor with its exceptions: no points fail on the derivative's negative allocation, one point on the `null` derivative; two or more give a fresh valid curve over the points with its table built |
| `Bezier.BezierCurve.constructor` | ProfileGenerator/src/math/BezierCurve.java:22-42 | the public constructor: the coordinate arrays mirror the control points; the arc-length table is built over `[0, 1]`; building it caches a derivative over `DerivativePoints`, and that derivative has neither a derivative nor a table of its own |
| `Bezier.BezierCurve.Derived` | ProfileGenerator/src/math/BezierCurve.java:26-42 | the non-top constructor: the coordinate arrays mirror the control points, and both caches stay `null` |
| `Bezier.BezierCurve.CalculateDerivative` | ProfileGenerator/src/math/BezierCurve.java:44-52 | `null` exactly for a one-point curve; otherwise a fresh, valid non-top curve over `(P[i+1] - P[i]) * (n - 1)` with no derivative and no table |
| `Bezier.BezierCurve.CopyOf` | ProfileGenerator/src/math/BezierCurve.java:56-57 | a fresh array with the same contents |
| `Bezier.BezierCurve.DeCasteljau` | ProfileGenerator/src/math/BezierCurve.java:54-58 | returns the curve's point `Evaluate(controlPoints, t)`; it works on copies, so the curve and its arrays are left unchanged |
| `Bezier.BezierCurve.DeCasteljauInPlace` | ProfileGenerator/src/math/BezierCurve.java:60-69 | the arrays end as the passes `length .. 2` leave them (`Passes`), and the result is the polynomial's value over the first `length` coordinates |
| `Bezier.BezierCurve.Pass` | ProfileGenerator/src/math/BezierCurve.java:62-66 | one inner loop leaves each array as `PassOver` of its old contents: slots `0 .. k-2` hold the collapse of slots `0 .. k-1`, and every later slot keeps its value |
| `Bezier.BezierCurve.PassOverStep` | ProfileGenerator/src/math/BezierCurve.java:62-66 | one step of the inner loop: slots `i` and `i + 1` still hold their original values, and interpolating them into slot `i` extends the collapsed prefix by one slot |
| `Bezier.BezierCurve.PassLowersRow` | ProfileGenerator/src/math/BezierCurve.java:61-66 | one pass takes the triangle state from `k` to `k - 1`: the prefix becomes the next row, and the slot it leaves keeps its entry of the previous row |
| `Bezier.BezierCurve.PassesFormTriangle` | ProfileGenerator/src/math/BezierCurve.java:61-67 | after the passes down to `k`, the first `k` slots are row `length - k` of the triangle; each slot `j` from `k` up to `length` holds entry `j` of row `length - 1 - j`; the slots from `length` on are unchanged |
| `Bezier.BezierCurve.PassesLeaveTriangle` | ProfileGenerator/src/math/BezierCurve.java:60-68 | after all passes, slot `j` holds entry `j` of row `length - 1 - j`, slot 0 holds the polynomial's value, and the slots from `length` on are untouched |
| `Bezier.BezierCurve.GetDerivative` | ProfileGenerator/src/math/BezierCurve.java:71-77 | computes the derivative only while the cache is `null`; a cached derivative is returned unchanged and the footprint does not grow; the result is `null` exactly for one point; the table is unchanged |
| `Bezier.BezierCurve.CreateTToArcLengthTable` | ProfileGenerator/src/math/BezierCurve.java:89-91 | stores the table over `[0, 1]`; fails with a `null` dereference exactly on a one-point curve, leaving the table as it was |
| `Bezier.BezierCurve.TToArcLengthTable` | ProfileGenerator/src/math/BezierCurve.java:93-97 | a table once built is returned unchanged, with nothing else changed; otherwise the table is built as `CreateTToArcLengthTable` does; a cached derivative is kept and one computed here is fresh |
| `Bezier.BezierCurve.GetArcLength` | ProfileGenerator/src/math/BezierCurve.java:99-101 | the table's output at `t`; a `null` dereference exactly on one point; after an `Ok` result the table is cached, and a cached derivative is kept and one computed here is fresh |
| `Bezier.BezierCurve.TFromArcLength` | ProfileGenerator/src/math/BezierCurve.java:103-105 | the table's inverse at `s`; a `null` dereference exactly on one point; after an `Ok` result the table is cached, and a cached derivative is kept and one computed here is fresh |
| `Bezier.BezierCurve.SecondDerivative` | ProfileGenerator/src/math/BezierCurve.java:109 | `getDerivative().getDerivative()`: `null` exactly for two or fewer points, and otherwise valid and over `DerivativePoints(DerivativePoints(P))`; both levels end up cached; an already cached second derivative is the one returned, a cached derivative is kept, and the table is unchanged; it changes only this curve and its derivative, so a cached derivative keeps its own table and anything cached deeper stays as it was |
| `Bezier.BezierCurve.Curvature` | ProfileGenerator/src/math/BezierCurve.java:107-111 | fails with a `null` dereference exactly on two or fewer points; otherwise `curvature2d` of the first and second derivative curves evaluated at `t`; the table is unchanged, and cached derivatives at both levels are kept; it changes only this curve and its derivative, so a cached derivative keeps its own table and anything cached deeper stays as it was |
| `Bezier.BezierCurve.GetCurvatureAtArcLength` | ProfileGenerator/src/math/BezierCurve.java:118-121 | the curvature at the parameter the table gives for arc length `s`; fails exactly on two or fewer points; on two or more points the table ends up cached; cached derivatives at both levels are kept; it changes only this curve and its derivative, so a cached derivative keeps its own table and anything cached deeper stays as it was |
| `Bezier.BezierCurve.GetPointAtArcLength` | ProfileGenerator/src/math/BezierCurve.java:123-126 | the curve's point at the parameter the table gives for `s`; fails exactly on one point; after an `Ok` result the table is cached, and a cached derivative is kept and one computed here is fresh |
| `BezierMath.LevelPreservesValue` | ProfileGenerator/src/math/BezierCurve.java:61-68 | every row of the triangle evaluates to the same value, and the single entry of the last row is the polynomial's value |
| `BezierMath.DeCasteljauAtZero` | ProfileGenerator/src/math/BezierCurve.java:61-68 | at `t = 0` the value is the first coefficient |
| `BezierMath.DeCasteljauAtOne` | ProfileGenerator/src/math/BezierCurve.java:61-68 | at `t = 1` the value is the last coefficient |
| `BezierMath.EvaluateEndPoints` | ProfileGenerator/src/math/BezierCurve.java:54-68 | the curve passes through its first control point at `t = 0` and its last at `t = 1` |
| `BezierMath.LerpBounded` | ProfileGenerator/src/math/BezierCurve.java:63-65 | for `t` in `[0, 1]`, one interpolation step of two values in `[lo, hi]` stays in `[lo, hi]` |
| `BezierMath.DeCasteljauBounded` | ProfileGenerator/src/math/BezierCurve.java:61-68 | for `t` in `[0, 1]`, the value lies between any bounds of the coefficients |
| `BezierMath.EvaluateInBox` | ProfileGenerator/src/math/BezierCurve.java:54-68 | for `t` in `[0, 1]`, the point lies in every axis-aligned box holding all control points |
| `BezierMath.DeCasteljauSplit` | ProfileGenerator/src/math/BezierCurve.java:61-67 | the value of `n` coefficients is the interpolation, by `t`, of the values of the first `n - 1` and of the last `n - 1` |
| `BezierMath.DeCasteljauLinear` | ProfileGenerator/src/math/BezierCurve.java:61-67 | evaluation is linear in the coefficients |
| `BezierMath.ScaledDifferences` | ProfileGenerator/src/math/BezierCurve.java:47-50 | a polygon of scaled differences `(p[i] - q[i]) * m` has, in each coordinate, the combination `m * p - m * q` |
| `BezierMath.DerivativeCoordinates` | ProfileGenerator/src/math/BezierCurve.java:44-52 | each coordinate of the derivative polygon is `(n - 1)` times the difference between the last `n - 1` and the first `n - 1` control points |
| `BezierMath.EvaluateScaledDifferences` | ProfileGenerator/src/math/BezierCurve.java:47-50 | the curve over scaled differences evaluates to the scaled difference of the two curves |
| `BezierMath.DerivativeIsHodograph` | ProfileGenerator/src/math/BezierCurve.java:44-52 | the derivative curve at `t` is `(n - 1)` times the difference between the curve of the last `n - 1` points and the curve of the first `n - 1`: the classical hodograph formula for the derivative (calculus itself is not modelled) |
| `BezierMath.DerivativeAtEnds` | ProfileGenerator/src/math/BezierCurve.java:44-52 | the derivative curve starts at `(P[1] - P[0]) * (n - 1)` and ends at `(P[n-1] - P[n-2]) * (n - 1)` |
| `Pathing.TrajectoryHolder.constructor` | ProfileGenerator/src/pathing/Path.java:82-92 | holds exactly the two arrays it is given |
| `Pathing.ToInt` | ProfileGenerator/src/pathing/Path.java:23 | Java's `(int)` cast of a `double`: rounds toward zero within the range of `int`, and saturates at either end of it |
| `Pathing.PointCountFitsDuration` | ProfileGenerator/src/pathing/Path.java:23 | for a positive interval and a duration that does not saturate the cast, `pointCount` whole intervals fit into the duration and `pointCount + 1` do not |
| `Pathing.PointCount` | ProfileGenerator/src/pathing/Path.java:23 | the body is the model (the cast of `duration / pointDurationSec`, with a zero interval as IEEE division gives it); its contract bounds the result to the range of `int`, and a positive (negative) count needs a quotient of at least 1 (at most -1) |
| `Pathing.Increment` | ProfileGenerator/src/pathing/Path.java:24 | unless `pointCount` is 1, the last sample, `pointCount - 1`, is taken at the profile's duration |
| `Pathing.Factors` | ProfileGenerator/src/pathing/Path.java:60-76 | both wheel factors are non-negative |
| `Pathing.InnerRatio` | ProfileGenerator/src/pathing/Path.java:65-69 | for `r = 1 / curvature`, `|r - h| / |r| = |1 - h * curvature|` |
| `Pathing.OuterRatio` | ProfileGenerator/src/pathing/Path.java:65-70 | for `r = 1 / curvature`, `|r + h| / |r| = |1 + h * curvature|` |
| `Pathing.LeftRatio` | ProfileGenerator/src/pathing/Path.java:65-69 | the left wheel's radius ratio `|r - w/2| / |r|` is its factor |
| `Pathing.RightRatio` | ProfileGenerator/src/pathing/Path.java:65-70 | the right wheel's radius ratio `|r + w/2| / |r|` is its factor |
| `Pathing.RadiusRatios` | ProfileGenerator/src/pathing/Path.java:64-70 | the curved case's `lK` and `rK`, computed as the source does, are the wheel factors of `Factors` |
| `Pathing.FactorsKinematics` | ProfileGenerator/src/pathing/Path.java:64-70 | on a turn whose radius is at least half the track width, the two factors sum to 2 and the right factor exceeds the left by `curvature * w` |
| `Pathing.FactorsAverageToOne` | ProfileGenerator/src/pathing/Path.java:60-70 | within the track width, the factors sum to 2, on straight samples as well as on turns |
| `Pathing.NextCursor` | ProfileGenerator/src/pathing/Path.java:39-44 | the cursor moves to the next segment exactly when the sample lies past the current one's arc length; it stays otherwise; it fails exactly when no segment follows |
| `Pathing.Advance` | ProfileGenerator/src/pathing/Path.java:34-57 | one iteration: the cursor stays in range and moves forward by at most one; an early end leaves the filled count, and a `break` also the cursor, as they were; an accepted sample `i` makes `i + 1` slots filled; an exception ends the loop |
| `Pathing.Run` | ProfileGenerator/src/pathing/Path.java:19-44 | after the iterations for samples `1 .. n-1` the cursor is in range, and the filled count is between 1 and `n`; it equals `n` unless the loop ended early; an exception always ends it |
| `Pathing.StoppedIsFinal` | ProfileGenerator/src/pathing/Path.java:36-41 | once the loop has broken off, later iterations change nothing |
| `Pathing.ProgressIsMonotone` | ProfileGenerator/src/pathing/Path.java:19-44 | the cursor and the filled count never decrease, and each grows by at most one per iteration |
| `Pathing.FilledSlotsAreSampled` | ProfileGenerator/src/pathing/Path.java:34-57 | every filled slot after 0 comes from a profile state and an answered curvature query; the loop ended early exactly when fewer than `n` slots are filled |
| `Pathing.FilledSlotIsSampled` | ProfileGenerator/src/pathing/Path.java:35-57 | a slot filled after the iterations for samples `1 .. n-1` was filled by the iteration for its own sample, whose profile state existed and whose curvature query answered |
| `Pathing.EarlyEndHasCause` | ProfileGenerator/src/pathing/Path.java:35-57 | an early end without an exception has one of the source's two `break` causes; an exception is the one the curvature query of the next sample's segment threw |
| `Pathing.Track` | ProfileGenerator/src/pathing/Path.java:31-32 | every slot of a wheel trajectory carries the duration `pointDurationSec` |
| `Pathing.HoldsAfterStep` | ProfileGenerator/src/pathing/Path.java:57-77 | writing slot `i` of one side from slot `i - 1` extends by one the prefix of slots that hold their wheel points |
| `Pathing.UnitFactorsTrackCenterline` | ProfileGenerator/src/pathing/Path.java:60-63 | a trajectory scaled by factor 1 throughout is the centerline itself |
| `Pathing.BalancedFactorsCentreOnCenterline` | ProfileGenerator/src/pathing/Path.java:58-77 | two trajectories whose factors sum to 2 have positions, velocities and accelerations that average to the centerline's |
| `Pathing.FactorGapScalesSpeed` | ProfileGenerator/src/pathing/Path.java:72-75 | factors that differ by `d` give velocities and accelerations that differ by `d` times the centerline's |
| `Pathing.StraightSamplesFollowCenterline` | ProfileGenerator/src/pathing/Path.java:60-63 | where every sample up to `j` is straight, slot `j` of either wheel holds the centerline position, velocity and acceleration |
| `Pathing.MidpointFollowsCenterline` | ProfileGenerator/src/pathing/Path.java:57-77 | where every sample up to `j` is within the track width, the two wheels average to the centerline |
| `Pathing.SideFactorsGap` | ProfileGenerator/src/pathing/Path.java:64-70 | on a curved sample within the track width, the right factor exceeds the left by `curvature * w` |
| `Pathing.WheelSpeedDifference` | ProfileGenerator/src/pathing/Path.java:72-75 | on a curved sample within the track width, the right wheel's velocity exceeds the left's by `curvature * w * vel`, and likewise for acceleration |
| `Pathing.SampledFromSegments` | ProfileGenerator/src/pathing/Path.java:39-57 | sample 0 is at rest, and each sample's curvature is the answer of one of the path's segments at the sample's arc length (0 for a query that threw, whose sample is never written) |
| `Pathing.SampleIsStraight` | ProfileGenerator/src/pathing/Path.java:57 | on a path whose every answered curvature is straight, every sample's curvature is below the threshold |
| `Pathing.SampleIsWithinTrack` | ProfileGenerator/src/pathing/Path.java:57 | on a path whose every answered curvature is within the track width, every sample is within it |
| `Pathing.StraightPathWheelsFollowCenterline` | ProfileGenerator/src/pathing/Path.java:60-63 | on a straight path, every slot of either wheel is the centerline state of its sample |
| `Pathing.StraightPathWheelsAgree` | ProfileGenerator/src/pathing/Path.java:60-63 | on a straight path, left and right hold the same point in every slot |
| `Pathing.WheelMidpointFollowsCenterline` | ProfileGenerator/src/pathing/Path.java:57-77 | on a path within the track width, the two wheels average to the centerline in every slot |
| `Pathing.EmitPoints` | ProfileGenerator/src/pathing/Path.java:60-76 | writes exactly slot `i` of each side: slot `i - 1` moved on by `dArc`, with the state's velocity and acceleration, scaled by that side's factor (1 when straight) |
| `Pathing.SampleOnce` | ProfileGenerator/src/pathing/Path.java:35-77 | one iteration agrees with `Run`: a break or an exception changes no slot, and the exception is `Run`'s; an accepted sample advances the cursor as `Run` does, makes `previousState` this sample's state, and extends both held prefixes by slot `i` |
| `Pathing.SampleAll` | ProfileGenerator/src/pathing/Path.java:34-78 | after the loop, both arrays hold exactly the first `Run(...).filled` wheel points and `null` after them, and the exception that ended the loop is `Run`'s |
| `Pathing.GetTrajectoryPoints` | ProfileGenerator/src/pathing/Path.java:18-80 | fails on an empty segment list, a negative `pointCount` and a zero `pointCount`; with a positive `pointCount` it fails exactly when a curvature query threw in the loop, with that exception; otherwise both arrays have `pointCount` slots, holding `Point(.., Left/Right, j)` in the same filled prefix and `null` after it; on success the holder and both arrays are newly allocated and the two arrays are distinct |

## Left out

- Arc length: `arcLengthDerivative`, `arcLengthIntegral` and `getTotalArcLength` use Gaussian quadrature and a vector magnitude (a square root). Neither is part of this model. In `Pathing` a curve's total arc length is an abstract value of `Curve`.
- `LookupTable` is not part of this model. A table is identified by the curve and interval it is built from, and its interpolation is passed in as a function (`getOutput`, `getInput`).
- `Util.curvature2d` is not part of this model. It is a function parameter of `Curvature`, and the model states only what it is applied to.
- `MotionProfile`, `MotionState`, `PathSegment`, `TrajectoryPoint`, `Curve` and `Vector` are not part of this model. They appear as plain datatypes; the profile's state at a time and a curve's curvature at an arc length are abstract functions. The fourth `MotionState` component is dropped: the modelled lines never read it.
- Floating point: every `double` is an exact `real`, so rounding is not modelled, and neither are NaN, infinities or `-0.0`.
- Bezier.BezierCurve.constructor: requires two or more points, as the source's documentation does, because a Dafny constructor cannot throw. The source throws on fewer: on one point a `NullPointerException` while building the table, and on none a `NegativeArraySizeException` in `calculateDerivative`. `Create` models those two exceptions.
- Bezier.BezierCurve.constructor, `Create` and `CreateTToArcLengthTable`: that building the table caches a derivative, and fails on one point, assumes that the `LookupTable` constructor and `Util.gaussQuadIntegrate` call the integrand at least once. Neither is part of this model.
- Total arc length: a curve's total arc length is a plain `real` that cannot fail. A curve built by the public constructor has two or more points, and on it `getTotalArcLength` does not throw. A one-point curve can still be reached: `getDerivative()` is public, and every two-point curve caches a one-point derivative when it is built. A segment holding such a curve would throw a null dereference in `getTotalArcLength`, because its integrand calls `getDerivative().deCasteljau(t)` and that derivative is `null` (under the same integrand assumption as the line above). The model's `totalArcLength: real` cannot express that exception.
- PointCount: a zero interval is modelled by the sign of the duration (IEEE infinity or NaN, then the cast). A `-0.0` interval, which would flip that sign, cannot be expressed.
- Increment: 0 stands for the source's division by zero when `pointCount == 1`; the value is never used then. `PointCountFitsDuration` covers only the unsaturated positive case.
- Memory: the allocation of very large arrays (for example `Integer.MAX_VALUE` slots after a zero interval) always succeeds in the model; `OutOfMemoryError` is not modelled.
- `BINOMIAL` (unused), the `println` in `getDerivative`, and `toString` are left out.
- Aliasing: the source stores the caller's varargs array as `controlPoints`. The model keeps an immutable `seq<Vector>` copy, so a caller that later mutates that array is not modelled.
- Public coordinate arrays: `controlPointsX` and `controlPointsY` are `public final double[]` fields, so a client may overwrite a slot; afterwards `deCasteljau` would evaluate the new values while `calculateDerivative` still reads `controlPoints`. `Valid()` keeps the two arrays equal to the coordinates of `controlPoints`, so that diverged state is not modelled.
- `currentSegment` is not a separate variable: it is kept as `pathSegments[cs]`, which is what the source maintains.
- The body of the sampling loop is split into `SampleOnce`, `EmitPoints` and `RadiusRatios`, and the inner de Casteljau loop into `Pass`. The statements are the source's, in its order. The inner loop's update `x[i] * mt + x[i + 1] * t` is written as the function `Interpolate`.
- Factors: the straight branch's unscaled copy is modelled as factor 1, which makes the two branches the same update.
