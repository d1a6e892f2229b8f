/** `math/BezierCurve.java`: a Bezier curve that keeps its control points, copies
    of their coordinates for evaluation, a lazily computed derivative curve and
    a lazily (or, for a top-level curve, eagerly) built arc-length table. */
module Bezier {
  import opened Results
  import opened BezierMath

  /** The curve's arc-length lookup table. The table itself is not part of this
      model, so a table is identified by what it is built from: the control
      points of the curve whose arc-length integral it samples, and the
      parameter interval it covers. */
  datatype LookupTable = LookupTable(points: seq<Vector>, lower: real, upper: real)

  class BezierCurve {
    const controlPoints: seq<Vector>
    const controlPointsX: array<real>
    const controlPointsY: array<real>
    /** The cache of `getDerivative`; `null` until first computed. */
    var derivative: BezierCurve?
    /** The cache of `tToArcLengthTable()`; `None` stands for `null`. */
    var tToArcLengthTable: Option<LookupTable>
    ghost var Repr: set<object>

    /** The object invariant: the coordinate arrays mirror the control points, a
        table exists only on a curve of two or more points (building one needs
        the derivative) and is the one over this curve on `[0, 1]`, and a cached
        derivative is a valid curve over the derivative polygon, owning its own
        (disjoint) footprint. */
    ghost predicate Valid()
      reads this, Repr
      decreases Repr
    {
      this in Repr && controlPointsX in Repr && controlPointsY in Repr &&
      |controlPoints| >= 1 &&
      controlPointsX[..] == Xs(controlPoints) &&
      controlPointsY[..] == Ys(controlPoints) &&
      (tToArcLengthTable.Some? ==>
        |controlPoints| >= 2 && tToArcLengthTable.value == LookupTable(controlPoints, 0.0, 1.0)) &&
      (derivative != null ==>
        derivative in Repr && derivative.Repr <= Repr && this !in derivative.Repr &&
        controlPointsX !in derivative.Repr && controlPointsY !in derivative.Repr &&
        derivative.controlPoints == DerivativePoints(controlPoints) &&
        derivative.Valid())
    }

    /** The coordinate-copy loop shared by both constructors. */
    static method CopyCoordinates(points: seq<Vector>) returns (xs: array<real>, ys: array<real>)
      ensures fresh(xs) && fresh(ys)
      ensures xs[..] == Xs(points) && ys[..] == Ys(points)
    {
      xs := new real[|points|];
      ys := new real[|points|];
      for i := 0 to |points|
        invariant forall j :: 0 <= j < i ==> xs[j] == points[j].x && ys[j] == points[j].y
      {
        xs[i] := points[i].x;
        ys[i] := points[i].y;
      }
    }

    /** The public constructor `BezierCurve(Vector...)`, which is the private one
        with `isTop` set: it copies the coordinates and builds the arc-length
        table at once. Building the table samples the arc-length integrand, which
        computes and caches the (non-top) derivative curve. */
    constructor (points: seq<Vector>)
      requires |points| >= 2
      ensures Valid() && fresh(Repr)
      ensures controlPoints == points
      ensures controlPointsX[..] == Xs(points) && controlPointsY[..] == Ys(points)
      ensures tToArcLengthTable == Some(LookupTable(points, 0.0, 1.0))
      ensures derivative != null && derivative.controlPoints == DerivativePoints(points)
      ensures derivative.derivative == null && derivative.tToArcLengthTable == None
    {
      controlPoints := points;
      var xs, ys := CopyCoordinates(points);
      controlPointsX, controlPointsY := xs, ys;
      derivative := null;
      tToArcLengthTable := None;
      Repr := {this, xs, ys};
      new;
      var _ := CreateTToArcLengthTable();
    }

    /** The public constructor as its caller sees it, exceptions included.
        Building the table samples the integrand, which asks for the
        derivative: on no points its allocation `new Vector[-1]` fails, and on
        one point `calculateDerivative` gives `null`, which is dereferenced. */
    static method Create(points: seq<Vector>) returns (r: Result<BezierCurve>)
      ensures r.Err? <==> |points| <= 1
      ensures |points| == 0 ==> r == Err(NegativeArraySize)
      ensures |points| == 1 ==> r == Err(NullDereference)
      ensures r.Ok? ==> fresh(r.value) && fresh(r.value.Repr) && r.value.Valid()
      ensures r.Ok? ==> r.value.controlPoints == points
      ensures r.Ok? ==> r.value.tToArcLengthTable == Some(LookupTable(points, 0.0, 1.0))
    {
      if |points| == 0 {
        return Err(NegativeArraySize);
      }
      if |points| == 1 {
        return Err(NullDereference);
      }
      var c := new BezierCurve(points);
      r := Ok(c);
    }

    /** The private constructor with `isTop` false: it copies the coordinates and
        leaves both caches empty. */
    constructor Derived(points: seq<Vector>)
      requires |points| >= 1
      ensures Valid() && fresh(Repr)
      ensures controlPoints == points
      ensures controlPointsX[..] == Xs(points) && controlPointsY[..] == Ys(points)
      ensures derivative == null && tToArcLengthTable == None
    {
      controlPoints := points;
      var xs, ys := CopyCoordinates(points);
      controlPointsX, controlPointsY := xs, ys;
      derivative := null;
      tToArcLengthTable := None;
      Repr := {this, xs, ys};
    }

    /** `calculateDerivative`: `null` for a one-point curve; otherwise a new
        non-top curve over `(P[i+1] - P[i]) * (n - 1)`, with empty caches. */
    method CalculateDerivative() returns (d: BezierCurve?)
      requires Valid()
      ensures d == null <==> |controlPoints| == 1
      ensures d != null ==> fresh(d) && fresh(d.Repr) && d.Valid()
      ensures d != null ==> d.controlPoints == DerivativePoints(controlPoints)
      ensures d != null ==> d.derivative == null && d.tToArcLengthTable == None
    {
      if |controlPoints| == 1 {
        return null;
      }
      var newPoints := new Vector[|controlPoints| - 1];
      for i := 0 to newPoints.Length
        invariant forall j :: 0 <= j < i ==>
          newPoints[j] == Scale(Subtract(controlPoints[j + 1], controlPoints[j]), newPoints.Length as real)
      {
        newPoints[i] := Scale(Subtract(controlPoints[i + 1], controlPoints[i]), newPoints.Length as real);
      }
      assert newPoints[..] == DerivativePoints(controlPoints);
      d := new BezierCurve.Derived(newPoints[..]);
    }

    /** `Arrays.copyOf(a, a.length)`. */
    static method CopyOf(a: array<real>) returns (b: array<real>)
      ensures fresh(b) && b[..] == a[..]
    {
      b := new real[a.Length](i requires 0 <= i < a.Length reads a => a[i]);
    }

    /** `deCasteljau(t)`: evaluates the curve on copies of the coordinate arrays,
        so the curve itself is left as it was. */
    method DeCasteljau(t: real) returns (p: Vector)
      requires Valid()
      ensures p == Evaluate(controlPoints, t)
    {
      var x := CopyOf(controlPointsX);
      var y := CopyOf(controlPointsY);
      assert x[..|controlPoints|] == Xs(controlPoints) && y[..|controlPoints|] == Ys(controlPoints);
      p := DeCasteljauInPlace(x, y, |controlPoints|, t);
    }

    /** `deCasteljau(x, y, length, t)`: the passes `k = length .. 2` overwrite
        `x[0 .. k-2]` (and `y`) with the next row of the de Casteljau triangle,
        leaving the arrays as `Passes` describes. Afterwards slot `j` holds
        entry `j` of row `length - 1 - j` (`PassesLeaveTriangle`), so slot `0`
        holds the curve's value, which is returned. */
    static method DeCasteljauInPlace(x: array<real>, y: array<real>, length: int, t: real) returns (p: Vector)
      requires x != y
      requires 1 <= length <= x.Length && length <= y.Length
      modifies x, y
      ensures x[..] == Passes(old(x[..]), length, 1, t) && y[..] == Passes(old(y[..]), length, 1, t)
      ensures p == Vector(BezierMath.DeCasteljau(old(x[..length]), t), BezierMath.DeCasteljau(old(y[..length]), t))
    {
      ghost var xs, ys := x[..], y[..];
      var k := length;
      while k > 1
        invariant 1 <= k <= length
        invariant x[..] == Passes(xs, length, k, t) && y[..] == Passes(ys, length, k, t)
        decreases k
      {
        Pass(x, y, k, t);
        k := k - 1;
      }
      PassesLeaveTriangle(xs, length, t);
      PassesLeaveTriangle(ys, length, t);
      p := Vector(x[0], y[0]);
    }

    /** The array contents after one pass at `k`: the first `k - 1` slots hold
        the collapse of the first `k`, the rest are as they were. */
    static ghost function PassOver(s: seq<real>, k: int, t: real): (r: seq<real>)
      requires 1 <= k <= |s|
      ensures |r| == |s|
    {
      Collapse(s[..k], t) + s[k - 1..]
    }

    /** The array contents after the passes `length, length - 1, .., k + 1`. */
    static ghost function Passes(s: seq<real>, length: int, k: int, t: real): (r: seq<real>)
      requires 1 <= k <= length <= |s|
      ensures |r| == |s|
      decreases length - k
    {
      if k == length then s else PassOver(Passes(s, length, k + 1, t), k + 1, t)
    }

    /** After the passes down to `k`, the array is in the triangle state for
        its first `length` values and unchanged from `length` on. */
    static lemma {:induction false} PassesFormTriangle(s: seq<real>, length: int, k: int, t: real)
      requires 1 <= k <= length <= |s|
      ensures Triangle(s[..length], Passes(s, length, k, t), k, t)
      ensures Passes(s, length, k, t)[length..] == s[length..]
      decreases length - k
    {
      if k < length {
        PassesFormTriangle(s, length, k + 1, t);
        var before := Passes(s, length, k + 1, t);
        var after := PassOver(before, k + 1, t);
        assert after[..k] == Collapse(before[..k + 1], t);
        assert after[k..] == before[k..];
        PassLowersRow(s[..length], before, after, k + 1, t);
      }
    }

    /** The state of the array `s` once the passes down to `k` are done, for
        the coefficients `s0`: its first `k` slots are row `|s0| - k` of the
        triangle, and every later slot `j` below `|s0|` keeps entry `j` of row
        `|s0| - 1 - j`, the last row that wrote it. */
    static ghost predicate Triangle(s0: seq<real>, s: seq<real>, k: int, t: real)
    {
      1 <= k <= |s0| <= |s| &&
      s[..k] == Level(s0, |s0| - k, t) &&
      forall j :: k <= j < |s0| ==> s[j] == Level(s0, |s0| - 1 - j, t)[j]
    }

    /** After all passes, slot `j < length` holds entry `j` of row
        `length - 1 - j` of the triangle over the first `length` values, slot 0
        the polynomial's value, and the slots from `length` on are untouched. */
    static lemma PassesLeaveTriangle(s: seq<real>, length: int, t: real)
      requires 1 <= length <= |s|
      ensures forall j :: 0 <= j < length ==>
        Passes(s, length, 1, t)[j] == Level(s[..length], length - 1 - j, t)[j]
      ensures Passes(s, length, 1, t)[0] == BezierMath.DeCasteljau(s[..length], t)
      ensures Passes(s, length, 1, t)[length..] == s[length..]
    {
      var r := Passes(s, length, 1, t);
      PassesFormTriangle(s, length, 1, t);
      assert r[0] == r[..1][0];
      LevelPreservesValue(s[..length], length - 1, t);
    }

    /** A pass replacing the first `k - 1` slots by a collapse of the first `k`
        takes the triangle state from `k` to `k - 1`. */
    static lemma PassLowersRow(s0: seq<real>, before: seq<real>, after: seq<real>, k: int, t: real)
      requires 1 < k && Triangle(s0, before, k, t) && |after| == |before|
      requires after[..k - 1] == Collapse(before[..k], t)
      requires after[k - 1..] == before[k - 1..]
      ensures Triangle(s0, after, k - 1, t)
    {
      var n := |s0|;
      assert after[..k - 1] == Level(s0, n - k + 1, t);
      forall j | k - 1 <= j < n
        ensures after[j] == Level(s0, n - 1 - j, t)[j]
      {
        assert after[j] == after[k - 1..][j - k + 1] == before[j];
        if j == k - 1 {
          assert before[j] == before[..k][j];
        }
      }
    }

    /** One iteration of the outer loop above: the inner loop over `i < k - 1`
        replaces `x[..k-1]` (and `y[..k-1]`) by one de Casteljau pass over
        `x[..k]`; it reads `x[i + 1]` before that slot is overwritten. */
    static method Pass(x: array<real>, y: array<real>, k: int, t: real)
      requires x != y
      requires 1 <= k <= x.Length && k <= y.Length
      modifies x, y
      ensures x[..] == PassOver(old(x[..]), k, t) && y[..] == PassOver(old(y[..]), k, t)
    {
      ghost var xs, ys := x[..], y[..];
      var i := 0;
      while i < k - 1
        invariant 0 <= i <= k - 1
        invariant x[..] == PassOver(xs, i + 1, t) && y[..] == PassOver(ys, i + 1, t)
      {
        var mt := 1.0 - t;
        PassOverStep(xs, i, t, mt, x[i], x[i + 1]);
        PassOverStep(ys, i, t, mt, y[i], y[i + 1]);
        x[i] := Interpolate(x[i], x[i + 1], mt, t);
        y[i] := Interpolate(y[i], y[i + 1], mt, t);
        i := i + 1;
      }
    }

    /** The inner loop's update `x[i] * mt + x[i + 1] * t`, with `mt = 1 - t`. */
    static function Interpolate(a: real, b: real, mt: real, t: real): real
    {
      a * mt + b * t
    }

    /** Step `i` of the inner loop, with `mt = 1 - t`: slots `i` and `i + 1`
        still hold their original values `a` and `b`, and interpolating them
        into slot `i` extends the collapsed prefix by one. */
    static lemma PassOverStep(s: seq<real>, i: int, t: real, mt: real, a: real, b: real)
      requires 0 <= i && i + 2 <= |s|
      requires mt == 1.0 - t
      requires a == PassOver(s, i + 1, t)[i] && b == PassOver(s, i + 1, t)[i + 1]
      ensures PassOver(s, i + 2, t) == PassOver(s, i + 1, t)[i := Interpolate(a, b, mt, t)]
    {
      var before, after := PassOver(s, i + 1, t), PassOver(s, i + 2, t);
      assert a == s[i] && b == s[i + 1];
      assert after[i] == Collapse(s[..i + 2], t)[i];
      forall j | 0 <= j < |s|
        ensures after[j] == before[i := Interpolate(a, b, mt, t)][j]
      {
        if j < i {
          assert before[j] == Collapse(s[..i + 1], t)[j] && after[j] == Collapse(s[..i + 2], t)[j];
        } else if j > i {
          assert before[j] == s[j] && after[j] == s[j];
        }
      }
    }

    /** `getDerivative`: computes the derivative only while the cache is `null`
        and otherwise returns the cached curve; nothing else changes. A one-point
        curve has no derivative, so its cache stays `null`. */
    method GetDerivative() returns (d: BezierCurve?)
      requires Valid()
      modifies this
      ensures Valid() && fresh(Repr - old(Repr))
      ensures d == derivative && tToArcLengthTable == old(tToArcLengthTable)
      ensures d == null <==> |controlPoints| == 1
      ensures old(derivative) != null ==> d == old(derivative) && Repr == old(Repr)
      ensures d == null ==> Repr == old(Repr)
      ensures old(derivative) == null && d != null ==>
        fresh(d) && d.derivative == null && d.tToArcLengthTable == None
      ensures d != null ==>
        d.controlPoints == DerivativePoints(controlPoints) && d.Valid() &&
        d in Repr && d.Repr <= Repr && this !in d.Repr
    {
      if derivative == null {
        derivative := CalculateDerivative();
        if derivative != null {
          Repr := Repr + derivative.Repr;
        }
      }
      d := derivative;
    }

    /** `createTToArcLengthTable`: a new table over `arcLengthIntegral` on
        `[0, 1]`. Building it samples the integrand, whose every evaluation goes
        through `getDerivative()`; on a one-point curve that is `null` and the
        dereference fails, leaving the table unset. */
    method CreateTToArcLengthTable() returns (r: Result<LookupTable>)
      requires Valid()
      modifies this
      ensures Valid() && fresh(Repr - old(Repr))
      ensures r.Err? <==> |controlPoints| == 1
      ensures r.Err? ==> r.error == NullDereference && tToArcLengthTable == old(tToArcLengthTable)
      ensures r.Ok? ==> r.value == LookupTable(controlPoints, 0.0, 1.0) && tToArcLengthTable == Some(r.value)
      ensures old(derivative) != null ==> derivative == old(derivative)
      ensures old(derivative) == null && derivative != null ==>
        fresh(derivative) && derivative.derivative == null && derivative.tToArcLengthTable == None
      ensures |controlPoints| >= 2 ==> derivative != null
    {
      var d := GetDerivative();
      if d == null {
        return Err(NullDereference);
      }
      tToArcLengthTable := Some(LookupTable(controlPoints, 0.0, 1.0));
      r := Ok(tToArcLengthTable.value);
    }

    /** `tToArcLengthTable()`: builds the table only when there is none yet, then
        returns it; a table once built is returned unchanged forever after. */
    method TToArcLengthTable() returns (r: Result<LookupTable>)
      requires Valid()
      modifies this
      ensures Valid() && fresh(Repr - old(Repr))
      ensures old(tToArcLengthTable).Some? ==>
        r == Ok(old(tToArcLengthTable).value) && derivative == old(derivative) && Repr == old(Repr)
      ensures r.Err? <==> |controlPoints| == 1
      ensures r.Err? ==> r.error == NullDereference
      ensures r.Ok? ==> r.value == LookupTable(controlPoints, 0.0, 1.0) && tToArcLengthTable == Some(r.value)
      ensures old(derivative) != null ==> derivative == old(derivative)
      ensures old(derivative) == null && derivative != null ==> fresh(derivative)
    {
      if tToArcLengthTable.None? {
        r := CreateTToArcLengthTable();
      } else {
        r := Ok(tToArcLengthTable.value);
      }
    }

    /** `getArcLength(t)`: the table's output at `t`, where `getOutput` stands for
        the table's interpolation, which is not part of this model. */
    method GetArcLength(t: real, getOutput: (LookupTable, real) -> real) returns (r: Result<real>)
      requires Valid()
      modifies this
      ensures Valid() && fresh(Repr - old(Repr))
      ensures r.Err? <==> |controlPoints| == 1
      ensures r.Err? ==> r.error == NullDereference
      ensures r.Ok? ==> r.value == getOutput(LookupTable(controlPoints, 0.0, 1.0), t)
      ensures r.Ok? ==> tToArcLengthTable == Some(LookupTable(controlPoints, 0.0, 1.0))
      ensures old(derivative) != null ==> derivative == old(derivative)
      ensures old(derivative) == null && derivative != null ==> fresh(derivative)
    {
      var table := TToArcLengthTable();
      if table.Err? {
        return Err(table.error);
      }
      r := Ok(getOutput(table.value, t));
    }

    /** `tFromArcLength(s)`: the table's inverse query at arc length `s`. */
    method TFromArcLength(s: real, getInput: (LookupTable, real) -> real) returns (r: Result<real>)
      requires Valid()
      modifies this
      ensures Valid() && fresh(Repr - old(Repr))
      ensures r.Err? <==> |controlPoints| == 1
      ensures r.Err? ==> r.error == NullDereference
      ensures r.Ok? ==> r.value == getInput(LookupTable(controlPoints, 0.0, 1.0), s)
      ensures r.Ok? ==> tToArcLengthTable == Some(LookupTable(controlPoints, 0.0, 1.0))
      ensures old(derivative) != null ==> derivative == old(derivative)
      ensures old(derivative) == null && derivative != null ==> fresh(derivative)
    {
      var table := TToArcLengthTable();
      if table.Err? {
        return Err(table.error);
      }
      r := Ok(getInput(table.value, s));
    }

    /** `curvature(t)`: `curvature2d` (the source's `Util.curvature2d`, not part
        of this model) applied to the first and second derivative curves at
        `t`. The second derivative exists only for three or more control points:
        on fewer, one of the two dereferences is of `null`. */
    method Curvature(t: real, curvature2d: (real, real, real, real) -> real) returns (r: Result<real>)
      requires Valid()
      modifies this, derivative
      ensures Valid() && fresh(Repr - old(Repr))
      ensures r.Err? <==> |controlPoints| <= 2
      ensures r.Err? ==> r.error == NullDereference
      ensures r.Ok? ==>
        var d1 := Evaluate(DerivativePoints(controlPoints), t);
        var d2 := Evaluate(DerivativePoints(DerivativePoints(controlPoints)), t);
        r.value == curvature2d(d1.x, d2.x, d1.y, d2.y)
      ensures tToArcLengthTable == old(tToArcLengthTable)
      ensures old(derivative) != null ==> derivative == old(derivative)
      ensures old(derivative) != null ==> derivative.tToArcLengthTable == old(derivative.tToArcLengthTable)
      ensures old(derivative) != null && old(derivative.derivative) != null ==>
        derivative.derivative == old(derivative.derivative)
      ensures |controlPoints| >= 2 ==> derivative != null
      ensures |controlPoints| >= 3 ==> derivative.derivative != null
    {
      var first := GetDerivative();
      if first == null {
        return Err(NullDereference);
      }
      var d1 := first.DeCasteljau(t);
      var second := SecondDerivative();
      if second == null {
        return Err(NullDereference);
      }
      var d2 := second.DeCasteljau(t);
      r := Ok(curvature2d(d1.x, d2.x, d1.y, d2.y));
    }

    /** `getDerivative().getDerivative()`: the derivative of the (cached or
        newly computed) derivative curve, computed and cached on that curve.
        A curve of fewer than three points has none: either this curve's
        derivative or the derivative's own is `null`. */
    method SecondDerivative() returns (second: BezierCurve?)
      requires Valid()
      modifies this, derivative
      ensures Valid() && fresh(Repr - old(Repr))
      ensures second == null <==> |controlPoints| <= 2
      ensures tToArcLengthTable == old(tToArcLengthTable)
      ensures old(derivative) != null ==> derivative == old(derivative)
      ensures old(derivative) != null ==> derivative.tToArcLengthTable == old(derivative.tToArcLengthTable)
      ensures old(derivative) != null && old(derivative.derivative) != null ==>
        second == old(derivative.derivative)
      ensures |controlPoints| >= 2 ==> derivative != null
      ensures |controlPoints| >= 3 ==> derivative.derivative != null && second == derivative.derivative
      ensures second != null ==>
        second.Valid() && second.controlPoints == DerivativePoints(DerivativePoints(controlPoints))
    {
      var first := GetDerivative();
      if first == null {
        return null;
      }
      second := first.GetDerivative();
      Repr := Repr + first.Repr;
    }

    /** `getCurvatureAtArcLength(s)`: the curvature at the parameter the table
        gives for arc length `s`. */
    method GetCurvatureAtArcLength(s: real, getInput: (LookupTable, real) -> real,
                                   curvature2d: (real, real, real, real) -> real) returns (r: Result<real>)
      requires Valid()
      modifies this, derivative
      ensures Valid() && fresh(Repr - old(Repr))
      ensures r.Err? <==> |controlPoints| <= 2
      ensures r.Err? ==> r.error == NullDereference
      ensures r.Ok? ==>
        var t := getInput(LookupTable(controlPoints, 0.0, 1.0), s);
        var d1 := Evaluate(DerivativePoints(controlPoints), t);
        var d2 := Evaluate(DerivativePoints(DerivativePoints(controlPoints)), t);
        r.value == curvature2d(d1.x, d2.x, d1.y, d2.y)
      ensures |controlPoints| >= 2 ==> tToArcLengthTable == Some(LookupTable(controlPoints, 0.0, 1.0))
      ensures old(derivative) != null ==> derivative == old(derivative)
      ensures old(derivative) != null ==> derivative.tToArcLengthTable == old(derivative.tToArcLengthTable)
      ensures old(derivative) != null && old(derivative.derivative) != null ==>
        derivative.derivative == old(derivative.derivative)
    {
      var t := TFromArcLength(s, getInput);
      if t.Err? {
        return Err(t.error);
      }
      r := Curvature(t.value, curvature2d);
    }

    /** `getPointAtArcLength(s)`: the point at the parameter the table gives for
        arc length `s`. */
    method GetPointAtArcLength(s: real, getInput: (LookupTable, real) -> real) returns (r: Result<Vector>)
      requires Valid()
      modifies this
      ensures Valid() && fresh(Repr - old(Repr))
      ensures r.Err? <==> |controlPoints| == 1
      ensures r.Err? ==> r.error == NullDereference
      ensures r.Ok? ==> r.value == Evaluate(controlPoints, getInput(LookupTable(controlPoints, 0.0, 1.0), s))
      ensures r.Ok? ==> tToArcLengthTable == Some(LookupTable(controlPoints, 0.0, 1.0))
      ensures old(derivative) != null ==> derivative == old(derivative)
      ensures old(derivative) == null && derivative != null ==> fresh(derivative)
    {
      var t := TFromArcLength(s, getInput);
      if t.Err? {
        return Err(t.error);
      }
      var p := DeCasteljau(t.value);
      r := Ok(p);
    }
  }
}
