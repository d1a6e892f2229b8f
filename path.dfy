/** `pathing/Path.java`: turning a centerline motion profile over a sequence of
    curve segments into left and right wheel trajectories of a differential-drive
    vehicle, sampled at a fixed interval. */
module Pathing {
  import opened Results

  /** A commanded centerline state: position along the path, velocity,
      acceleration. */
  datatype MotionState = MotionState(pos: real, vel: real, acc: real)

  /** The motion profile, not part of this model: its duration and its state at
      a given time, `None` once the time lies outside the profile. */
  datatype MotionProfile = MotionProfile(duration: real, stateByTime: real -> Option<MotionState>)

  /** The `Curve` capability that Path uses: the total arc length and the signed
      curvature at a given arc length. The curvature query may throw, as
      `BezierCurve.getCurvatureAtArcLength` does on a curve of two points. */
  datatype Curve = Curve(totalArcLength: real, curvatureAtArcLength: real -> Result<real>)

  datatype PathSegment = PathSegment(curve: Curve)

  datatype Path = Path(profile: MotionProfile, pathSegments: seq<PathSegment>)

  datatype TrajectoryPoint = TrajectoryPoint(position: real, velocity: real, acceleration: real, duration: real)

  /** `Path.TrajectoryHolder`: the two output arrays, index-aligned by sample;
      `None` is a slot the synthesis left `null`. */
  class TrajectoryHolder {
    const left: array<Option<TrajectoryPoint>>
    const right: array<Option<TrajectoryPoint>>

    constructor (left: array<Option<TrajectoryPoint>>, right: array<Option<TrajectoryPoint>>)
      ensures this.left == left && this.right == right
    {
      this.left := left;
      this.right := right;
    }
  }

  /** Below this magnitude a curvature counts as a straight line (`1.0E-20`). */
  const StraightThreshold: real := 0.00000000000000000001

  const IntMin: int := -0x8000_0000
  const IntMax: int := 0x7fff_ffff

  function Abs(x: real): (r: real)
    ensures r >= 0.0 && (r == x || r == -x)
  {
    if x < 0.0 then -x else x
  }

  /** Java's `(int)` cast of a `double`: rounds toward zero and saturates at the
      range of `int`. */
  function ToInt(x: real): (n: int)
    ensures IntMin <= n <= IntMax
    ensures 0.0 <= x < IntMax as real ==> n as real <= x < n as real + 1.0
    ensures IntMin as real < x <= 0.0 ==> n as real - 1.0 < x <= n as real
    ensures x >= IntMax as real ==> n == IntMax
    ensures x <= IntMin as real ==> n == IntMin
  {
    if x >= 0.0 then
      (if x >= IntMax as real then IntMax else x.Floor)
    else
      (if x <= IntMin as real then IntMin else -((-x).Floor))
  }

  /** `pointCount = (int) (duration / pointDurationSec)`. A division by a zero
      interval gives an infinity of the duration's sign, or NaN for `0 / 0`,
      which the cast turns into an extreme of `int` or 0. */
  function PointCount(duration: real, pointDurationSec: real): (n: int)
    ensures IntMin <= n <= IntMax
    ensures pointDurationSec != 0.0 ==> (n > 0 ==> duration / pointDurationSec >= 1.0)
    ensures pointDurationSec != 0.0 ==> (n < 0 ==> duration / pointDurationSec <= -1.0)
  {
    if pointDurationSec != 0.0 then ToInt(duration / pointDurationSec)
    else if duration > 0.0 then IntMax
    else if duration < 0.0 then IntMin
    else 0
  }

  /** For a positive interval and a duration short enough not to saturate the
      cast, `pointCount` is the number of whole intervals in the duration. */
  lemma PointCountFitsDuration(duration: real, pointDurationSec: real)
    requires pointDurationSec > 0.0
    requires 0.0 <= duration < IntMax as real * pointDurationSec
    ensures var n := PointCount(duration, pointDurationSec) as real;
      n >= 0.0 && n * pointDurationSec <= duration < (n + 1.0) * pointDurationSec
  {
    var q := duration / pointDurationSec;
    assert 0.0 <= q < IntMax as real by {
      assert IntMax as real * pointDurationSec / pointDurationSec == IntMax as real;
    }
    var n := PointCount(duration, pointDurationSec) as real;
    assert n <= q < n + 1.0;
    ScaleBounds(n, q, n + 1.0, pointDurationSec);
    assert q * pointDurationSec < (n + 1.0) * pointDurationSec;
    assert q * pointDurationSec == duration;
    assert duration < (n + 1.0) * pointDurationSec;
  }

  lemma ScaleBounds(lo: real, x: real, hi: real, c: real)
    requires c > 0.0 && lo <= x < hi
    ensures lo * c <= x * c < hi * c
  {
  }

  /** `increment = duration / (pointCount - 1)`: the samples run from time 0
      to the profile's duration, as sample `pointCount - 1` is taken at
      `duration`. For `pointCount == 1` the source divides by zero; the value
      is then never used, and 0 stands for it. */
  function Increment(duration: real, pointCount: int): (inc: real)
    ensures pointCount != 1 ==> (pointCount - 1) as real * inc == duration
  {
    if pointCount != 1 then duration / (pointCount - 1) as real else 0.0
  }

  // ---------------------------------------------------------------------------
  // The differential-drive correction

  /** The factors applied to each wheel: both 1 below the straight-line
      threshold, where the source adds `dArc` and copies velocity and
      acceleration unscaled, and otherwise `|1 - curvature * w / 2|` and
      `|1 + curvature * w / 2|`: the left wheel runs on the radius
      `|r - w/2|` and the right on `|r + w/2|`, each divided by the
      centerline radius `|r|`, with `r = 1 / curvature` (`RadiusRatios`). */
  function Factors(curvature: real, robotWidth: real): (k: (real, real))
    ensures k.0 >= 0.0 && k.1 >= 0.0
  {
    if Abs(curvature) < StraightThreshold then (1.0, 1.0)
    else (Abs(1.0 - robotWidth / 2.0 * curvature), Abs(1.0 + robotWidth / 2.0 * curvature))
  }

  lemma AbsProduct(x: real, y: real)
    ensures Abs(x * y) == Abs(x) * Abs(y)
  {
    if x < 0.0 && y < 0.0 {
      assert x * y == (-x) * (-y);
    } else if x < 0.0 {
      assert x * y == -((-x) * y);
    } else if y < 0.0 {
      assert x * y == -(x * (-y));
    }
  }

  lemma AbsQuotient(a: real, b: real)
    requires b != 0.0
    ensures Abs(a) / Abs(b) == Abs(a / b)
  {
    var q := a / b;
    assert a == q * b;
    AbsProduct(q, b);
    assert Abs(a) == Abs(q) * Abs(b);
  }

  /** `|r - h| / |r| = |1 - h * curvature|` for the radius `r = 1 / curvature`. */
  lemma InnerRatio(curvature: real, h: real)
    requires curvature != 0.0
    ensures Abs(1.0 / curvature - h) / Abs(1.0 / curvature) == Abs(1.0 - h * curvature)
  {
    var r := 1.0 / curvature;
    assert r * curvature == 1.0;
    assert (r - h) / r == 1.0 - h * curvature by {
      assert (r - h) / r == 1.0 - h / r;
      assert h / r == h * curvature;
    }
    AbsQuotient(r - h, r);
  }

  /** `|r + h| / |r| = |1 + h * curvature|` for the radius `r = 1 / curvature`. */
  lemma OuterRatio(curvature: real, h: real)
    requires curvature != 0.0
    ensures Abs(1.0 / curvature + h) / Abs(1.0 / curvature) == Abs(1.0 + h * curvature)
  {
    var r := 1.0 / curvature;
    assert r * curvature == 1.0;
    assert (r + h) / r == 1.0 + h * curvature by {
      assert (r + h) / r == 1.0 + h / r;
      assert h / r == h * curvature;
    }
    AbsQuotient(r + h, r);
  }

  /** The turn radius `1 / curvature` is at least half the track width. */
  predicate WithinTrackAt(curvature: real, robotWidth: real)
  {
    Abs(curvature * robotWidth) <= 2.0
  }

  /** While the turn radius is at least half the track width
      (`|curvature * w| <= 2`), the wheel factors of a turn average to 1 and
      differ by `curvature * w`: the wheels' mean follows the centerline and
      their speed difference is the turn rate times the track width. */
  lemma FactorsKinematics(curvature: real, robotWidth: real)
    requires Abs(curvature) >= StraightThreshold
    requires WithinTrackAt(curvature, robotWidth)
    ensures Factors(curvature, robotWidth).0 + Factors(curvature, robotWidth).1 == 2.0
    ensures Factors(curvature, robotWidth).1 - Factors(curvature, robotWidth).0 == curvature * robotWidth
  {
    var a := robotWidth / 2.0 * curvature;
    assert a == curvature * robotWidth / 2.0;
    assert -1.0 <= a <= 1.0;
  }

  // ---------------------------------------------------------------------------
  // The sampling loop as a function of its iterations

  /** The loop's control state: the segment cursor `cs`, the number of filled
      slots (slot 0 and every accepted sample), whether the loop has ended
      early, and the exception that ended it, if one did rather than a
      `break`. */
  datatype Progress = Progress(cs: nat, filled: nat, stopped: bool, thrown: Option<Error>)

  /** The profile's answer for sample `i`, taken at time `i * increment`. */
  function SampleAt(path: Path, increment: real, i: nat): Option<MotionState>
  {
    path.profile.stateByTime(i as real * increment)
  }

  /** The segment a sample at arc length `pos` belongs to: the current one, the
      next one once `pos` is past the current one's total arc length, or `None`
      when that happens on the last segment. */
  function NextCursor(path: Path, cs: nat, pos: real): (c: Option<nat>)
    requires cs < |path.pathSegments|
    ensures c.None? <==> pos > path.pathSegments[cs].curve.totalArcLength && cs + 1 == |path.pathSegments|
    ensures c.Some? ==> c.value < |path.pathSegments|
    ensures c.Some? ==> (c.value == cs + 1 <==> pos > path.pathSegments[cs].curve.totalArcLength)
    ensures c.Some? ==> (c.value == cs <==> pos <= path.pathSegments[cs].curve.totalArcLength)
  {
    if pos > path.pathSegments[cs].curve.totalArcLength then
      (if cs + 1 >= |path.pathSegments| then None else Some(cs + 1))
    else Some(cs)
  }

  /** One iteration, for sample `i`, of the loop's control: stop when the
      profile has no state or the sample runs off the last segment, end with
      the exception when the curvature query of the sample's segment throws,
      and otherwise accept the sample into slot `i`. */
  function Advance(path: Path, increment: real, i: nat, p: Progress): (r: Progress)
    requires p.cs < |path.pathSegments| && !p.stopped && p.thrown.None?
    ensures r.cs < |path.pathSegments|
    ensures r.cs == p.cs || r.cs == p.cs + 1
    ensures r.stopped ==> r.filled == p.filled
    ensures r.stopped && r.thrown.None? ==> r.cs == p.cs
    ensures !r.stopped ==> r.filled == i + 1 && r.thrown.None?
    ensures r.thrown.Some? ==> r.stopped
  {
    match SampleAt(path, increment, i)
    case None => p.(stopped := true)
    case Some(state) =>
      match NextCursor(path, p.cs, state.pos)
      case None => p.(stopped := true)
      case Some(cs) =>
        match path.pathSegments[cs].curve.curvatureAtArcLength(state.pos)
        case Err(e) => Progress(cs, p.filled, true, Some(e))
        case Ok(_) => Progress(cs, i + 1, false, None)
  }

  /** The control state once the iterations for samples `1 .. n - 1` have run,
      or a `break` or an exception ended the loop earlier. */
  function Run(path: Path, increment: real, n: nat): (p: Progress)
    requires |path.pathSegments| > 0
    ensures p.cs < |path.pathSegments|
    ensures 1 <= p.filled <= if n == 0 then 1 else n
    ensures !p.stopped ==> p.filled == if n == 0 then 1 else n
    ensures p.thrown.Some? ==> p.stopped
  {
    if n <= 1 then Progress(0, 1, false, None)
    else
      var p := Run(path, increment, n - 1);
      if p.stopped then p else Advance(path, increment, n - 1, p)
  }

  /** Iteration `i` after `i - 1` iterations that did not end the loop. */
  lemma RunStep(path: Path, increment: real, i: nat)
    requires |path.pathSegments| > 0 && i >= 1
    requires !Run(path, increment, i).stopped
    ensures Run(path, increment, i + 1) == Advance(path, increment, i, Run(path, increment, i))
  {
  }

  /** The centerline state that sample `j` is computed from: at rest for `j = 0`,
      the profile's state at `j * increment` after that. */
  function SampleState(path: Path, increment: real, j: nat): MotionState
  {
    if j == 0 then MotionState(0.0, 0.0, 0.0)
    else match SampleAt(path, increment, j)
      case Some(state) => state
      case None => MotionState(0.0, 0.0, 0.0)
  }

  /** The value of a curvature query that answered; a sample whose query threw
      is never written, and 0 stands for it. */
  function Answered(c: Result<real>): real
  {
    if c.Ok? then c.value else 0.0
  }

  /** The curvature query for sample `j`: that of the segment the cursor is on
      for it, at the sample's arc length. */
  function CurvatureQuery(path: Path, increment: real, j: nat): Result<real>
    requires |path.pathSegments| > 0
  {
    var cs := Run(path, increment, j + 1).cs;
    path.pathSegments[cs].curve.curvatureAtArcLength(SampleState(path, increment, j).pos)
  }

  /** The curvature that sample `j` is corrected for. */
  function CurvatureAt(path: Path, increment: real, j: nat): real
    requires |path.pathSegments| > 0
  {
    Answered(CurvatureQuery(path, increment, j))
  }

  datatype Side = Left | Right

  /** What the wheel computation reads for each sample: the centerline state
      and the curvature it is corrected for. */
  datatype Samples = Samples(state: nat -> MotionState, curvature: nat -> real)

  /** The samples the loop takes from `path`. */
  function Sampled(path: Path, increment: real): (s: Samples)
    requires |path.pathSegments| > 0
  {
    Samples((j: nat) => SampleState(path, increment, j), (j: nat) => CurvatureAt(path, increment, j))
  }

  /** The next point of one wheel: its last position plus the centerline's arc
      step, and the centerline velocity and acceleration, each scaled by the
      wheel's factor. */
  function WheelPoint(last: TrajectoryPoint, dArc: real, state: MotionState, k: real,
                      pointDurationSec: real): TrajectoryPoint
  {
    TrajectoryPoint(last.position + dArc * k, state.vel * k, state.acc * k, pointDurationSec)
  }

  /** Slot `j` of a wheel trajectory driven by the centerline states `c` with
      the wheel factors `k`: the point at rest for `j = 0`, and otherwise slot
      `j - 1` moved on by the arc step from `c(j - 1)` to `c(j)` with factor
      `k(j)`. */
  function Track(c: nat -> MotionState, k: nat -> real, pointDurationSec: real, j: nat): (t: TrajectoryPoint)
    ensures t.duration == pointDurationSec
  {
    if j == 0 then TrajectoryPoint(0.0, 0.0, 0.0, pointDurationSec)
    else WheelPoint(Track(c, k, pointDurationSec, j - 1), c(j).pos - c(j - 1).pos, c(j), k(j), pointDurationSec)
  }

  /** The factor of `side` for each sample. */
  function SideFactors(s: Samples, robotWidth: real, side: Side): nat -> real
  {
    (j: nat) => var f := Factors(s.curvature(j), robotWidth); if side == Left then f.0 else f.1
  }

  lemma SideFactorsAt(s: Samples, robotWidth: real, side: Side, j: nat)
    ensures SideFactors(s, robotWidth, side)(j)
         == if side == Left then Factors(s.curvature(j), robotWidth).0 else Factors(s.curvature(j), robotWidth).1
  {
  }

  /** Slot `j` of the trajectory of `side` over the samples `s`. */
  function Wheel(s: Samples, robotWidth: real, side: Side, pointDurationSec: real, j: nat): TrajectoryPoint
  {
    Track(s.state, SideFactors(s, robotWidth, side), pointDurationSec, j)
  }

  /** Slot `i` of a wheel, written out from slot `i - 1`. */
  lemma WheelStep(s: Samples, robotWidth: real, side: Side, pointDurationSec: real, i: nat)
    requires i >= 1
    ensures var k := Factors(s.curvature(i), robotWidth);
      Wheel(s, robotWidth, side, pointDurationSec, i)
        == WheelPoint(Wheel(s, robotWidth, side, pointDurationSec, i - 1), s.state(i).pos - s.state(i - 1).pos,
                      s.state(i), if side == Left then k.0 else k.1, pointDurationSec)
  {
    SideFactorsAt(s, robotWidth, side, i);
  }

  /** A point computed from slot `i - 1` with sample `i`'s arc step, state
      and curvature is slot `i`. */
  lemma StepIsNextSlot(s: Samples, robotWidth: real, side: Side, pointDurationSec: real, i: nat,
                       last: TrajectoryPoint, dArc: real, state: MotionState, curvature: real)
    requires i >= 1
    requires last == Wheel(s, robotWidth, side, pointDurationSec, i - 1)
    requires state == s.state(i) && dArc == state.pos - s.state(i - 1).pos && curvature == s.curvature(i)
    ensures var k := Factors(curvature, robotWidth);
      WheelPoint(last, dArc, state, if side == Left then k.0 else k.1, pointDurationSec)
        == Wheel(s, robotWidth, side, pointDurationSec, i)
  {
    WheelStep(s, robotWidth, side, pointDurationSec, i);
  }

  /** The samples the loop takes, one at a time. */
  lemma SampledAt(path: Path, increment: real, i: nat)
    requires |path.pathSegments| > 0
    ensures Sampled(path, increment).state(i) == SampleState(path, increment, i)
    ensures Sampled(path, increment).curvature(i) == CurvatureAt(path, increment, i)
  {
  }

  /** Slot `j` of the trajectory of `side` on `path`. */
  function Point(path: Path, robotWidth: real, pointDurationSec: real, increment: real,
                 side: Side, j: nat): TrajectoryPoint
    requires |path.pathSegments| > 0
  {
    Wheel(Sampled(path, increment), robotWidth, side, pointDurationSec, j)
  }

  /** The slots `a` hold slots `0 .. filled - 1` of `side` over the samples
      `s` and `null` after them. */
  ghost predicate Holds(a: seq<Option<TrajectoryPoint>>, s: Samples, robotWidth: real,
                        pointDurationSec: real, side: Side, filled: nat)
  {
    forall j :: 0 <= j < |a| ==>
      a[j] == if j < filled then Some(Wheel(s, robotWidth, side, pointDurationSec, j)) else None
  }

  /** One accepted iteration, on the slots of one side: writing slot `i` from
      slot `i - 1`, with sample `i`'s arc step, state and curvature, extends
      the held prefix by one. */
  lemma HoldsAfterStep(a: seq<Option<TrajectoryPoint>>, s: Samples, robotWidth: real, pointDurationSec: real,
                       side: Side, i: nat, dArc: real, state: MotionState, curvature: real)
    requires 1 <= i < |a|
    requires Holds(a, s, robotWidth, pointDurationSec, side, i)
    requires state == s.state(i) && dArc == state.pos - s.state(i - 1).pos && curvature == s.curvature(i)
    ensures a[i - 1].Some?
    ensures var k := Factors(curvature, robotWidth);
      Holds(a[i := Some(WheelPoint(a[i - 1].value, dArc, state, if side == Left then k.0 else k.1, pointDurationSec))],
            s, robotWidth, pointDurationSec, side, i + 1)
  {
    assert a[i - 1] == Some(Wheel(s, robotWidth, side, pointDurationSec, i - 1));
    StepIsNextSlot(s, robotWidth, side, pointDurationSec, i, a[i - 1].value, dArc, state, curvature);
  }

  // ---------------------------------------------------------------------------
  // Properties of the sampling loop's control

  /** Once the loop has broken off, later iterations change nothing. */
  lemma {:induction false} StoppedIsFinal(path: Path, increment: real, m: nat, n: nat)
    requires |path.pathSegments| > 0
    requires m <= n
    requires Run(path, increment, m).stopped
    ensures Run(path, increment, n) == Run(path, increment, m)
    decreases n - m
  {
    if m < n {
      StoppedIsFinal(path, increment, m, n - 1);
    }
  }

  /** The segment cursor and the filled count never move back, and each advances
      by at most one per sample. */
  lemma {:induction false} ProgressIsMonotone(path: Path, increment: real, m: nat, n: nat)
    requires |path.pathSegments| > 0
    requires m <= n
    ensures var a, b := Run(path, increment, m), Run(path, increment, n);
      a.cs <= b.cs <= a.cs + (n - m) && a.filled <= b.filled <= a.filled + (n - m)
    decreases n - m
  {
    if m < n {
      ProgressIsMonotone(path, increment, m, n - 1);
    }
  }

  /** Every filled slot after slot 0 comes from a state the profile had and a
      curvature query that answered, and the loop ended early exactly when
      fewer than `n` slots are filled. */
  lemma {:induction false} FilledSlotsAreSampled(path: Path, increment: real, n: nat)
    requires |path.pathSegments| > 0
    ensures var p := Run(path, increment, n);
      forall j :: 1 <= j < p.filled ==> SampleAt(path, increment, j).Some? && CurvatureQuery(path, increment, j).Ok?
    ensures var p := Run(path, increment, n);
      p.stopped <==> p.filled < n
  {
    forall j | 1 <= j < Run(path, increment, n).filled
      ensures SampleAt(path, increment, j).Some? && CurvatureQuery(path, increment, j).Ok?
    {
      FilledSlotIsSampled(path, increment, n, j);
    }
    if n > 1 {
      FilledSlotsAreSampled(path, increment, n - 1);
    }
  }

  /** Slot `j`, when filled after the iterations for samples `1 .. n-1`, comes
      from a profile state and an answered curvature query: the iteration that
      filled it was for sample `j`. */
  lemma {:induction false} FilledSlotIsSampled(path: Path, increment: real, n: nat, j: nat)
    requires |path.pathSegments| > 0
    requires 1 <= j < Run(path, increment, n).filled
    ensures SampleAt(path, increment, j).Some? && CurvatureQuery(path, increment, j).Ok?
  {
    var q := Run(path, increment, n - 1);
    if j < q.filled {
      FilledSlotIsSampled(path, increment, n - 1, j);
    } else {
      assert Run(path, increment, n) == Advance(path, increment, n - 1, q);
    }
  }

  /** An early end without an exception has one of the two causes of the
      source's `break`: the profile had no state for the next sample, or that
      sample lies past the current segment and no segment follows. An
      exception is the one the curvature query of the next sample's segment
      threw. */
  lemma {:induction false} EarlyEndHasCause(path: Path, increment: real, n: nat)
    requires |path.pathSegments| > 0
    ensures var p := Run(path, increment, n);
      var om := SampleAt(path, increment, p.filled);
      p.stopped && p.thrown.None? ==>
        om.None? ||
        (om.value.pos > path.pathSegments[p.cs].curve.totalArcLength && p.cs + 1 == |path.pathSegments|)
    ensures var p := Run(path, increment, n);
      var om := SampleAt(path, increment, p.filled);
      p.thrown.Some? ==>
        om.Some? && path.pathSegments[p.cs].curve.curvatureAtArcLength(om.value.pos) == Err(p.thrown.value)
  {
    if n > 1 {
      EarlyEndHasCause(path, increment, n - 1);
    }
  }

  // ---------------------------------------------------------------------------
  // Properties of the wheel trajectories

  lemma FactorsAverageToOne(curvature: real, robotWidth: real)
    requires WithinTrackAt(curvature, robotWidth)
    ensures Factors(curvature, robotWidth).0 + Factors(curvature, robotWidth).1 == 2.0
  {
    if Abs(curvature) >= StraightThreshold {
      FactorsKinematics(curvature, robotWidth);
    }
  }

  lemma MidpointStep(lp: real, rp: real, prev: real, pos: real, kl: real, kr: real)
    requires lp + rp == 2.0 * prev
    requires kl + kr == 2.0
    ensures (lp + (pos - prev) * kl) + (rp + (pos - prev) * kr) == 2.0 * pos
  {
    assert (pos - prev) * kl + (pos - prev) * kr == (pos - prev) * (kl + kr);
  }

  lemma ScaledPair(v: real, kl: real, kr: real)
    requires kl + kr == 2.0
    ensures v * kl + v * kr == 2.0 * v
  {
    assert v * kl + v * kr == v * (kl + kr);
  }

  /** A trajectory whose factors are all 1 is the centerline itself. */
  lemma {:induction false} UnitFactorsTrackCenterline(c: nat -> MotionState, k: nat -> real,
                                                      pointDurationSec: real, j: nat)
    requires c(0) == MotionState(0.0, 0.0, 0.0)
    requires forall i :: 1 <= i <= j ==> k(i) == 1.0
    ensures Track(c, k, pointDurationSec, j) == TrajectoryPoint(c(j).pos, c(j).vel, c(j).acc, pointDurationSec)
  {
    if j > 0 {
      UnitFactorsTrackCenterline(c, k, pointDurationSec, j - 1);
    }
  }

  /** Two trajectories over the same centerline whose factors average to 1
      are centred on it: their positions, velocities and accelerations
      average to the centerline's. */
  lemma {:induction false} BalancedFactorsCentreOnCenterline(c: nat -> MotionState, kl: nat -> real,
                                                             kr: nat -> real, pointDurationSec: real, j: nat)
    requires c(0) == MotionState(0.0, 0.0, 0.0)
    requires forall i :: 1 <= i <= j ==> kl(i) + kr(i) == 2.0
    ensures var l, r := Track(c, kl, pointDurationSec, j), Track(c, kr, pointDurationSec, j);
      l.position + r.position == 2.0 * c(j).pos &&
      l.velocity + r.velocity == 2.0 * c(j).vel &&
      l.acceleration + r.acceleration == 2.0 * c(j).acc
  {
    if j > 0 {
      BalancedFactorsCentreOnCenterline(c, kl, kr, pointDurationSec, j - 1);
      var l, r := Track(c, kl, pointDurationSec, j - 1), Track(c, kr, pointDurationSec, j - 1);
      MidpointStep(l.position, r.position, c(j - 1).pos, c(j).pos, kl(j), kr(j));
      ScaledPair(c(j).vel, kl(j), kr(j));
      ScaledPair(c(j).acc, kl(j), kr(j));
    }
  }

  /** Two trajectories over the same centerline whose factors at slot `j`
      differ by `d` differ there in velocity and acceleration by `d` times the
      centerline's. */
  lemma FactorGapScalesSpeed(c: nat -> MotionState, kl: nat -> real, kr: nat -> real,
                             pointDurationSec: real, j: nat, d: real)
    requires j > 0
    requires kr(j) - kl(j) == d
    ensures var l, r := Track(c, kl, pointDurationSec, j), Track(c, kr, pointDurationSec, j);
      r.velocity - l.velocity == d * c(j).vel &&
      r.acceleration - l.acceleration == d * c(j).acc
  {
    assert c(j).vel * kr(j) - c(j).vel * kl(j) == (kr(j) - kl(j)) * c(j).vel;
    assert c(j).acc * kr(j) - c(j).acc * kl(j) == (kr(j) - kl(j)) * c(j).acc;
  }

  /** Where every sample up to `j` is straight, either wheel follows the
      centerline exactly: slot `j` holds the centerline position, velocity and
      acceleration of sample `j`. */
  lemma StraightSamplesFollowCenterline(s: Samples, robotWidth: real, side: Side,
                                        pointDurationSec: real, j: nat)
    requires s.state(0) == MotionState(0.0, 0.0, 0.0)
    requires forall i :: 1 <= i <= j ==> Abs(s.curvature(i)) < StraightThreshold
    ensures Wheel(s, robotWidth, side, pointDurationSec, j)
         == TrajectoryPoint(s.state(j).pos, s.state(j).vel, s.state(j).acc, pointDurationSec)
  {
    var k := SideFactors(s, robotWidth, side);
    forall i | 1 <= i <= j
      ensures k(i) == 1.0
    {
      assert Abs(s.curvature(i)) < StraightThreshold;
    }
    UnitFactorsTrackCenterline(s.state, k, pointDurationSec, j);
  }

  /** Where no sample up to `j` turns tighter than half the track width, the
      midpoint of the two wheels follows the centerline: the positions,
      velocities and accelerations of the two sides average to the sample's. */
  lemma MidpointFollowsCenterline(s: Samples, robotWidth: real, pointDurationSec: real, j: nat)
    requires s.state(0) == MotionState(0.0, 0.0, 0.0)
    requires forall i :: 1 <= i <= j ==> WithinTrackAt(s.curvature(i), robotWidth)
    ensures var l, r := Wheel(s, robotWidth, Left, pointDurationSec, j), Wheel(s, robotWidth, Right, pointDurationSec, j);
      l.position + r.position == 2.0 * s.state(j).pos &&
      l.velocity + r.velocity == 2.0 * s.state(j).vel &&
      l.acceleration + r.acceleration == 2.0 * s.state(j).acc
  {
    var kl, kr := SideFactors(s, robotWidth, Left), SideFactors(s, robotWidth, Right);
    forall i | 1 <= i <= j
      ensures kl(i) + kr(i) == 2.0
    {
      FactorsAverageToOne(s.curvature(i), robotWidth);
    }
    BalancedFactorsCentreOnCenterline(s.state, kl, kr, pointDurationSec, j);
  }

  lemma SideFactorsGap(s: Samples, robotWidth: real, j: nat)
    requires Abs(s.curvature(j)) >= StraightThreshold
    requires WithinTrackAt(s.curvature(j), robotWidth)
    ensures SideFactors(s, robotWidth, Right)(j) - SideFactors(s, robotWidth, Left)(j) == s.curvature(j) * robotWidth
  {
    FactorsKinematics(s.curvature(j), robotWidth);
    SideFactorsAt(s, robotWidth, Left, j);
    SideFactorsAt(s, robotWidth, Right, j);
  }

  /** On a curved sample within the track the right wheel runs faster than the
      left by the turn rate times the track width: their velocities differ by
      `curvature * w * vel`, and so do their accelerations. */
  lemma WheelSpeedDifference(s: Samples, robotWidth: real, pointDurationSec: real, j: nat)
    requires j > 0
    requires Abs(s.curvature(j)) >= StraightThreshold
    requires WithinTrackAt(s.curvature(j), robotWidth)
    ensures var l, r := Wheel(s, robotWidth, Left, pointDurationSec, j), Wheel(s, robotWidth, Right, pointDurationSec, j);
      r.velocity - l.velocity == s.curvature(j) * robotWidth * s.state(j).vel &&
      r.acceleration - l.acceleration == s.curvature(j) * robotWidth * s.state(j).acc
  {
    SideFactorsGap(s, robotWidth, j);
    FactorGapScalesSpeed(s.state, SideFactors(s, robotWidth, Left), SideFactors(s, robotWidth, Right),
                         pointDurationSec, j, s.curvature(j) * robotWidth);
  }

  // ---------------------------------------------------------------------------
  // The wheel properties on a path

  /** All segment curvatures that are answered are below the straight-line
      threshold. */
  ghost predicate AllStraight(path: Path)
  {
    forall k, p :: 0 <= k < |path.pathSegments| ==>
      var c := path.pathSegments[k].curve.curvatureAtArcLength(p);
      c.Ok? ==> Abs(c.value) < StraightThreshold
  }

  /** All segment curvatures that are answered keep the turn radius at least
      half the track width. */
  ghost predicate WithinTrack(path: Path, robotWidth: real)
  {
    forall k, p :: 0 <= k < |path.pathSegments| ==>
      var c := path.pathSegments[k].curve.curvatureAtArcLength(p);
      c.Ok? ==> WithinTrackAt(c.value, robotWidth)
  }

  /** Each sample is corrected for the curvature of one of the path's segments
      at the sample's arc length, and sample 0 is at rest. */
  lemma SampledFromSegments(path: Path, increment: real, j: nat)
    requires |path.pathSegments| > 0
    ensures Sampled(path, increment).state(0) == MotionState(0.0, 0.0, 0.0)
    ensures exists k :: 0 <= k < |path.pathSegments| && Sampled(path, increment).curvature(j)
                             == Answered(path.pathSegments[k].curve.curvatureAtArcLength(Sampled(path, increment).state(j).pos))
  {
    var k := Run(path, increment, j + 1).cs;
    assert Sampled(path, increment).curvature(j)
        == Answered(path.pathSegments[k].curve.curvatureAtArcLength(Sampled(path, increment).state(j).pos));
  }

  lemma SampleIsStraight(path: Path, increment: real, i: nat)
    requires |path.pathSegments| > 0
    requires AllStraight(path)
    ensures Abs(Sampled(path, increment).curvature(i)) < StraightThreshold
  {
    var k := Run(path, increment, i + 1).cs;
    var pos := Sampled(path, increment).state(i).pos;
    var c := path.pathSegments[k].curve.curvatureAtArcLength(pos);
    assert Sampled(path, increment).curvature(i) == Answered(c);
    assert c.Ok? ==> Abs(c.value) < StraightThreshold;
  }

  lemma SampleIsWithinTrack(path: Path, robotWidth: real, increment: real, i: nat)
    requires |path.pathSegments| > 0
    requires WithinTrack(path, robotWidth)
    ensures WithinTrackAt(Sampled(path, increment).curvature(i), robotWidth)
  {
    var k := Run(path, increment, i + 1).cs;
    var pos := Sampled(path, increment).state(i).pos;
    var c := path.pathSegments[k].curve.curvatureAtArcLength(pos);
    assert Sampled(path, increment).curvature(i) == Answered(c);
    assert c.Ok? ==> WithinTrackAt(c.value, robotWidth);
  }

  /** On a path that is straight everywhere both wheels follow the centerline
      exactly. */
  lemma StraightPathWheelsFollowCenterline(path: Path, robotWidth: real, pointDurationSec: real,
                                           increment: real, side: Side, j: nat)
    requires |path.pathSegments| > 0
    requires AllStraight(path)
    ensures var c := SampleState(path, increment, j);
      Point(path, robotWidth, pointDurationSec, increment, side, j)
        == TrajectoryPoint(c.pos, c.vel, c.acc, pointDurationSec)
  {
    var s := Sampled(path, increment);
    forall i | 1 <= i <= j
      ensures Abs(s.curvature(i)) < StraightThreshold
    {
      SampleIsStraight(path, increment, i);
    }
    SampledFromSegments(path, increment, 0);
    StraightSamplesFollowCenterline(s, robotWidth, side, pointDurationSec, j);
    SampledAt(path, increment, j);
  }

  /** On a path that is straight everywhere the left and right wheels agree in
      every slot. */
  lemma StraightPathWheelsAgree(path: Path, robotWidth: real, pointDurationSec: real, increment: real, j: nat)
    requires |path.pathSegments| > 0
    requires AllStraight(path)
    ensures Point(path, robotWidth, pointDurationSec, increment, Left, j)
         == Point(path, robotWidth, pointDurationSec, increment, Right, j)
  {
    StraightPathWheelsFollowCenterline(path, robotWidth, pointDurationSec, increment, Left, j);
    StraightPathWheelsFollowCenterline(path, robotWidth, pointDurationSec, increment, Right, j);
  }

  /** While no segment turns tighter than half the track width, the midpoint of
      the two wheels on the path follows the centerline in every slot. */
  lemma WheelMidpointFollowsCenterline(path: Path, robotWidth: real, pointDurationSec: real,
                                       increment: real, j: nat)
    requires |path.pathSegments| > 0
    requires WithinTrack(path, robotWidth)
    ensures var c := SampleState(path, increment, j);
      var l := Point(path, robotWidth, pointDurationSec, increment, Left, j);
      var r := Point(path, robotWidth, pointDurationSec, increment, Right, j);
      l.position + r.position == 2.0 * c.pos &&
      l.velocity + r.velocity == 2.0 * c.vel &&
      l.acceleration + r.acceleration == 2.0 * c.acc
  {
    var s := Sampled(path, increment);
    forall i | 1 <= i <= j
      ensures WithinTrackAt(s.curvature(i), robotWidth)
    {
      SampleIsWithinTrack(path, robotWidth, increment, i);
    }
    SampledFromSegments(path, increment, 0);
    MidpointFollowsCenterline(s, robotWidth, pointDurationSec, j);
    SampledAt(path, increment, j);
  }

  // ---------------------------------------------------------------------------
  // The method

  /** The curved case's factors, computed as the source does from the turn
      radius `r = 1 / curvature`. */
  method RadiusRatios(curvature: real, robotWidth: real) returns (lK: real, rK: real)
    requires Abs(curvature) >= StraightThreshold
    ensures (lK, rK) == Factors(curvature, robotWidth)
  {
    var r := 1.0 / curvature;
    var lR := Abs(r - robotWidth / 2.0);
    var rR := Abs(r + robotWidth / 2.0);
    r := Abs(r);
    lK := lR / r;
    rK := rR / r;
    LeftRatio(curvature, robotWidth, lK);
    RightRatio(curvature, robotWidth, rK);
  }

  /** The left wheel's radius ratio `|r - w/2| / |r|` is its factor. */
  lemma LeftRatio(curvature: real, robotWidth: real, lK: real)
    requires Abs(curvature) >= StraightThreshold
    requires lK == Abs(1.0 / curvature - robotWidth / 2.0) / Abs(1.0 / curvature)
    ensures lK == Factors(curvature, robotWidth).0
  {
    InnerRatio(curvature, robotWidth / 2.0);
  }

  /** The right wheel's radius ratio `|r + w/2| / |r|` is its factor. */
  lemma RightRatio(curvature: real, robotWidth: real, rK: real)
    requires Abs(curvature) >= StraightThreshold
    requires rK == Abs(1.0 / curvature + robotWidth / 2.0) / Abs(1.0 / curvature)
    ensures rK == Factors(curvature, robotWidth).1
  {
    OuterRatio(curvature, robotWidth / 2.0);
  }

  /** The writes of one accepted iteration: slot `i` of each side from slot
      `i - 1`, either straight or with the turn's wheel factors. */
  method EmitPoints(left: array<Option<TrajectoryPoint>>, right: array<Option<TrajectoryPoint>>, i: nat,
                    curvature: real, dArc: real, state: MotionState, robotWidth: real, pointDurationSec: real)
    requires left != right
    requires 1 <= i < left.Length && i < right.Length
    requires left[i - 1].Some? && right[i - 1].Some?
    modifies left, right
    ensures left[..] == old(left[..])[i := Some(WheelPoint(old(left[i - 1]).value, dArc, state,
                                                           Factors(curvature, robotWidth).0, pointDurationSec))]
    ensures right[..] == old(right[..])[i := Some(WheelPoint(old(right[i - 1]).value, dArc, state,
                                                             Factors(curvature, robotWidth).1, pointDurationSec))]
  {
    var lastLeft, lastRight := left[i - 1].value, right[i - 1].value;
    if Abs(curvature) < StraightThreshold {
      assert WheelPoint(lastLeft, dArc, state, 1.0, pointDurationSec)
          == TrajectoryPoint(lastLeft.position + dArc, state.vel, state.acc, pointDurationSec);
      assert WheelPoint(lastRight, dArc, state, 1.0, pointDurationSec)
          == TrajectoryPoint(lastRight.position + dArc, state.vel, state.acc, pointDurationSec);
      left[i] := Some(TrajectoryPoint(lastLeft.position + dArc, state.vel, state.acc, pointDurationSec));
      right[i] := Some(TrajectoryPoint(lastRight.position + dArc, state.vel, state.acc, pointDurationSec));
    } else {
      var lK, rK := RadiusRatios(curvature, robotWidth);
      assert WheelPoint(lastLeft, dArc, state, lK, pointDurationSec)
          == TrajectoryPoint(lastLeft.position + dArc * lK, state.vel * lK, state.acc * lK, pointDurationSec);
      assert WheelPoint(lastRight, dArc, state, rK, pointDurationSec)
          == TrajectoryPoint(lastRight.position + dArc * rK, state.vel * rK, state.acc * rK, pointDurationSec);
      left[i] := Some(TrajectoryPoint(lastLeft.position + dArc * lK, state.vel * lK, state.acc * lK,
                                      pointDurationSec));
      right[i] := Some(TrajectoryPoint(lastRight.position + dArc * rK, state.vel * rK, state.acc * rK,
                                       pointDurationSec));
    }
  }

  /** The body of the sampling loop for sample `i`: fetch the profile state,
      advance the segment cursor, and write slot `i` of both sides, or report
      that the loop breaks off. The cursor's segment is `pathSegments[cs]`
      throughout, as the source keeps it in `currentSegment`. */
  method SampleOnce(path: Path, robotWidth: real, pointDurationSec: real, increment: real, i: nat,
                    left: array<Option<TrajectoryPoint>>, right: array<Option<TrajectoryPoint>>,
                    cs: nat, previousState: MotionState)
    returns (stop: bool, thrown: Option<Error>, cs': nat, previousState': MotionState)
    requires |path.pathSegments| > 0
    requires Run(path, increment, i) == Progress(cs, i, false, None)
    requires previousState == SampleState(path, increment, i - 1)
    requires left != right && 1 <= i < left.Length && left.Length == right.Length
    requires Holds(left[..], Sampled(path, increment), robotWidth, pointDurationSec, Left, i)
    requires Holds(right[..], Sampled(path, increment), robotWidth, pointDurationSec, Right, i)
    modifies left, right
    ensures var p := Run(path, increment, i + 1);
      stop == p.stopped && thrown == p.thrown &&
      (stop ==> left[..] == old(left[..]) && right[..] == old(right[..])) &&
      (!stop ==> p == Progress(cs', i + 1, false, None) && previousState' == SampleState(path, increment, i) &&
                 Holds(left[..], Sampled(path, increment), robotWidth, pointDurationSec, Left, i + 1) &&
                 Holds(right[..], Sampled(path, increment), robotWidth, pointDurationSec, Right, i + 1))
  {
    RunStep(path, increment, i);
    var currentSegment := path.pathSegments[cs];
    cs' := cs;
    previousState' := previousState;

    var om := SampleAt(path, increment, i);
    if om.None? {
      return true, None, cs', previousState';
    }
    var state := om.value;
    if state.pos > currentSegment.curve.totalArcLength {
      if cs + 1 >= |path.pathSegments| {
        return true, None, cs', previousState';
      }
      cs' := cs + 1;
      currentSegment := path.pathSegments[cs'];
    }
    assert NextCursor(path, cs, state.pos) == Some(cs');

    var answer := currentSegment.curve.curvatureAtArcLength(state.pos);
    if answer.Err? {
      return true, Some(answer.error), cs', previousState';
    }
    var curvature := answer.value;
    assert Run(path, increment, i + 1) == Progress(cs', i + 1, false, None);
    assert SampleState(path, increment, i) == state;
    var dArc := state.pos - previousState.pos;
    assert curvature == CurvatureAt(path, increment, i);
    SampledAt(path, increment, i);
    SampledAt(path, increment, i - 1);
    HoldsAfterStep(left[..], Sampled(path, increment), robotWidth, pointDurationSec, Left, i, dArc, state, curvature);
    HoldsAfterStep(right[..], Sampled(path, increment), robotWidth, pointDurationSec, Right, i, dArc, state, curvature);
    EmitPoints(left, right, i, curvature, dArc, state, robotWidth, pointDurationSec);
    previousState' := state;
    stop, thrown := false, None;
  }

  /** The sampling loop of `getTrajectoryPoints`, for samples `1 .. n - 1`
      with `n` the arrays' length; slot 0 is already written. `thrown` is the
      exception that ended the loop, if any. */
  method SampleAll(path: Path, robotWidth: real, pointDurationSec: real, increment: real,
                   left: array<Option<TrajectoryPoint>>, right: array<Option<TrajectoryPoint>>)
    returns (thrown: Option<Error>)
    requires |path.pathSegments| > 0
    requires left != right && 1 <= left.Length == right.Length
    requires Holds(left[..], Sampled(path, increment), robotWidth, pointDurationSec, Left, 1)
    requires Holds(right[..], Sampled(path, increment), robotWidth, pointDurationSec, Right, 1)
    modifies left, right
    ensures thrown == Run(path, increment, left.Length).thrown
    ensures var filled := Run(path, increment, left.Length).filled;
      Holds(left[..], Sampled(path, increment), robotWidth, pointDurationSec, Left, filled) &&
      Holds(right[..], Sampled(path, increment), robotWidth, pointDurationSec, Right, filled)
  {
    var n := left.Length;
    var cs := 0;
    var previousState := MotionState(0.0, 0.0, 0.0);
    thrown := None;
    for i := 1 to n
      invariant Run(path, increment, i) == Progress(cs, i, false, None)
      invariant thrown.None?
      invariant previousState == SampleState(path, increment, i - 1)
      invariant Holds(left[..], Sampled(path, increment), robotWidth, pointDurationSec, Left, i)
      invariant Holds(right[..], Sampled(path, increment), robotWidth, pointDurationSec, Right, i)
    {
      var stop, t;
      stop, t, cs, previousState := SampleOnce(path, robotWidth, pointDurationSec, increment, i,
                                               left, right, cs, previousState);
      if stop {
        StoppedIsFinal(path, increment, i + 1, n);
        thrown := t;
        break;
      }
    }
  }

  /** `getTrajectoryPoints(robotWidth, pointDurationSec)`. An empty segment list
      fails on `pathSegments[0]`, a negative `pointCount` on the array
      allocation and a zero one on the write to slot 0; a curvature query that
      throws ends the loop with its exception. Otherwise both arrays have
      `pointCount` slots: the first `filled` hold the wheel points `Point` of
      the samples the loop accepted, and the rest stay `null`. */
  method GetTrajectoryPoints(path: Path, robotWidth: real, pointDurationSec: real)
    returns (r: Result<TrajectoryHolder>)
    ensures |path.pathSegments| == 0 ==> r.Err? && r.error == IndexOutOfBounds
    ensures |path.pathSegments| > 0 ==>
      var pointCount := PointCount(path.profile.duration, pointDurationSec);
      (pointCount < 0 ==> r.Err? && r.error == NegativeArraySize) &&
      (pointCount == 0 ==> r.Err? && r.error == IndexOutOfBounds) &&
      (pointCount > 0 ==>
        var thrown := Run(path, Increment(path.profile.duration, pointCount), pointCount).thrown;
        (r.Ok? <==> thrown.None?) && (r.Err? ==> r.error == thrown.value))
    ensures r.Ok? ==>
      var pointCount := PointCount(path.profile.duration, pointDurationSec);
      var increment := Increment(path.profile.duration, pointCount);
      var filled := Run(path, increment, pointCount).filled;
      r.value.left.Length == pointCount && r.value.right.Length == pointCount &&
      (forall j :: 0 <= j < pointCount ==>
        r.value.left[j] == if j < filled then Some(Point(path, robotWidth, pointDurationSec, increment, Left, j)) else None) &&
      (forall j :: 0 <= j < pointCount ==>
        r.value.right[j] == if j < filled then Some(Point(path, robotWidth, pointDurationSec, increment, Right, j)) else None)
    ensures r.Ok? ==> fresh(r.value) && fresh(r.value.left) && fresh(r.value.right) && r.value.left != r.value.right
  {
    if |path.pathSegments| == 0 {
      return Err(IndexOutOfBounds);
    }
    var duration := path.profile.duration;
    var pointCount := PointCount(duration, pointDurationSec);
    var increment := Increment(duration, pointCount);

    if pointCount < 0 {
      return Err(NegativeArraySize);
    }
    var left := new Option<TrajectoryPoint>[pointCount](_ => None);
    var right := new Option<TrajectoryPoint>[pointCount](_ => None);

    var previousState := MotionState(0.0, 0.0, 0.0);

    if pointCount == 0 {
      return Err(IndexOutOfBounds);
    }
    left[0] := Some(TrajectoryPoint(previousState.pos, previousState.vel, previousState.acc, pointDurationSec));
    right[0] := Some(TrajectoryPoint(previousState.pos, previousState.vel, previousState.acc, pointDurationSec));

    var thrown := SampleAll(path, robotWidth, pointDurationSec, increment, left, right);
    if thrown.Some? {
      return Err(thrown.value);
    }
    var holder := new TrajectoryHolder(left, right);
    r := Ok(holder);
  }
}
