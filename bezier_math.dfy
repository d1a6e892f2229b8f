/** The polynomial algebra behind BezierCurve: points and vectors, the
    de Casteljau evaluation of a control polygon, and the control polygon of
    the derivative curve. Everything here is exact over `real`. */
module BezierMath {

  /** An immutable 2D point or vector (the `Vector` class of the source). */
  datatype Vector = Vector(x: real, y: real)

  /** `a.subtract(b)`: the vector from `b` to `a`. */
  function Subtract(a: Vector, b: Vector): Vector
  {
    Vector(a.x - b.x, a.y - b.y)
  }

  /** `a.scale(c)`. */
  function Scale(a: Vector, c: real): Vector
  {
    Vector(a.x * c, a.y * c)
  }

  /** The x coordinates of a control polygon, in order. */
  function Xs(ps: seq<Vector>): (r: seq<real>)
    ensures |r| == |ps|
    ensures forall i :: 0 <= i < |ps| ==> r[i] == ps[i].x
  {
    seq(|ps|, i requires 0 <= i < |ps| => ps[i].x)
  }

  /** The y coordinates of a control polygon, in order. */
  function Ys(ps: seq<Vector>): (r: seq<real>)
    ensures |r| == |ps|
    ensures forall i :: 0 <= i < |ps| ==> r[i] == ps[i].y
  {
    seq(|ps|, i requires 0 <= i < |ps| => ps[i].y)
  }

  /** One de Casteljau pass: every adjacent pair `(s[i], s[i+1])` is replaced by
      `s[i] * (1 - t) + s[i+1] * t`, so the sequence gets one shorter. */
  function Collapse(s: seq<real>, t: real): (r: seq<real>)
    requires |s| >= 1
    ensures |r| == |s| - 1
  {
    seq(|s| - 1, i requires 0 <= i < |s| - 1 => s[i] * (1.0 - t) + s[i + 1] * t)
  }

  /** The `m`-th row of the de Casteljau triangle: `m` passes applied to `s`. */
  function Level(s: seq<real>, m: nat, t: real): (r: seq<real>)
    requires m < |s|
    ensures |r| == |s| - m
  {
    if m == 0 then s else Collapse(Level(s, m - 1, t), t)
  }

  /** The value at `t` of the one-dimensional Bezier polynomial with
      coefficients `s`: collapse until a single value remains. */
  function DeCasteljau(s: seq<real>, t: real): real
    requires |s| >= 1
    decreases |s|
  {
    if |s| == 1 then s[0] else DeCasteljau(Collapse(s, t), t)
  }

  /** The point at parameter `t` of the curve with control points `ps`,
      evaluated coordinate by coordinate as the source does. */
  function Evaluate(ps: seq<Vector>, t: real): Vector
    requires |ps| >= 1
  {
    Vector(DeCasteljau(Xs(ps), t), DeCasteljau(Ys(ps), t))
  }

  /** The control points of the derivative curve: `(P[i+1] - P[i]) * (n - 1)`
      for an `n`-point curve. */
  function DerivativePoints(ps: seq<Vector>): (r: seq<Vector>)
    requires |ps| >= 1
    ensures |r| == |ps| - 1
  {
    seq(|ps| - 1, i requires 0 <= i < |ps| - 1 =>
      Scale(Subtract(ps[i + 1], ps[i]), (|ps| - 1) as real))
  }

  /** Pointwise `p * a[i] + q * b[i]`. */
  function Combine(a: seq<real>, b: seq<real>, p: real, q: real): (r: seq<real>)
    requires |a| == |b|
    ensures |r| == |a|
  {
    seq(|a|, i requires 0 <= i < |a| => p * a[i] + q * b[i])
  }

  // ---------------------------------------------------------------------------
  // Rows of the triangle

  /** Every row of the triangle evaluates to the same value; the last row is a
      single entry, which is therefore the curve's value. */
  lemma {:induction false} LevelPreservesValue(s: seq<real>, m: nat, t: real)
    requires m < |s|
    ensures DeCasteljau(Level(s, m, t), t) == DeCasteljau(s, t)
    ensures m == |s| - 1 ==> Level(s, m, t)[0] == DeCasteljau(s, t)
  {
    if m > 0 {
      LevelPreservesValue(s, m - 1, t);
    }
  }

  // ---------------------------------------------------------------------------
  // End-point interpolation

  lemma {:induction false} DeCasteljauAtZero(s: seq<real>)
    requires |s| >= 1
    ensures DeCasteljau(s, 0.0) == s[0]
    decreases |s|
  {
    if |s| > 1 {
      var c := Collapse(s, 0.0);
      assert c == s[..|s| - 1];
      DeCasteljauAtZero(c);
    }
  }

  lemma {:induction false} DeCasteljauAtOne(s: seq<real>)
    requires |s| >= 1
    ensures DeCasteljau(s, 1.0) == s[|s| - 1]
    decreases |s|
  {
    if |s| > 1 {
      var c := Collapse(s, 1.0);
      assert c == s[1..];
      DeCasteljauAtOne(c);
    }
  }

  /** The curve starts at its first control point and ends at its last. */
  lemma EvaluateEndPoints(ps: seq<Vector>)
    requires |ps| >= 1
    ensures Evaluate(ps, 0.0) == ps[0]
    ensures Evaluate(ps, 1.0) == ps[|ps| - 1]
  {
    DeCasteljauAtZero(Xs(ps));
    DeCasteljauAtZero(Ys(ps));
    DeCasteljauAtOne(Xs(ps));
    DeCasteljauAtOne(Ys(ps));
  }

  // ---------------------------------------------------------------------------
  // Convex-combination bounds

  /** For `0 <= t <= 1` an interpolation of two values in `[lo, hi]` stays in `[lo, hi]`. */
  lemma LerpBounded(a: real, b: real, t: real, lo: real, hi: real)
    requires 0.0 <= t <= 1.0
    requires lo <= a <= hi && lo <= b <= hi
    ensures lo <= a * (1.0 - t) + b * t <= hi
  {
    LerpAtLeast(a, b, t, lo);
    LerpAtMost(a, b, t, hi);
  }

  lemma LerpAtLeast(a: real, b: real, t: real, lo: real)
    requires 0.0 <= t <= 1.0
    requires lo <= a && lo <= b
    ensures lo <= a * (1.0 - t) + b * t
  {
    assert a * (1.0 - t) >= lo * (1.0 - t);
    assert b * t >= lo * t;
  }

  lemma LerpAtMost(a: real, b: real, t: real, hi: real)
    requires 0.0 <= t <= 1.0
    requires a <= hi && b <= hi
    ensures a * (1.0 - t) + b * t <= hi
  {
    assert a * (1.0 - t) <= hi * (1.0 - t);
    assert b * t <= hi * t;
  }

  lemma {:induction false} DeCasteljauBounded(s: seq<real>, t: real, lo: real, hi: real)
    requires |s| >= 1
    requires 0.0 <= t <= 1.0
    requires forall i :: 0 <= i < |s| ==> lo <= s[i] <= hi
    ensures lo <= DeCasteljau(s, t) <= hi
    decreases |s|
  {
    if |s| > 1 {
      var c := Collapse(s, t);
      forall i | 0 <= i < |c|
        ensures lo <= c[i] <= hi
      {
        LerpBounded(s[i], s[i + 1], t, lo, hi);
      }
      DeCasteljauBounded(c, t, lo, hi);
    }
  }

  /** For `t` in `[0, 1]` the curve lies in every axis-aligned box that holds
      all of its control points. */
  lemma EvaluateInBox(ps: seq<Vector>, t: real, lo: Vector, hi: Vector)
    requires |ps| >= 1
    requires 0.0 <= t <= 1.0
    requires forall i :: 0 <= i < |ps| ==> lo.x <= ps[i].x <= hi.x && lo.y <= ps[i].y <= hi.y
    ensures lo.x <= Evaluate(ps, t).x <= hi.x
    ensures lo.y <= Evaluate(ps, t).y <= hi.y
  {
    DeCasteljauBounded(Xs(ps), t, lo.x, hi.x);
    DeCasteljauBounded(Ys(ps), t, lo.y, hi.y);
  }

  // ---------------------------------------------------------------------------
  // Subdivision and linearity

  /** A pass over the first `n - 1` (last `n - 1`) coefficients is the pass over
      all `n` without its last (first) entry. */
  lemma CollapseEnds(s: seq<real>, t: real)
    requires |s| >= 2
    ensures Collapse(s, t)[..|s| - 2] == Collapse(s[..|s| - 1], t)
    ensures Collapse(s, t)[1..] == Collapse(s[1..], t)
  {
    var c, front, back := Collapse(s, t), s[..|s| - 1], s[1..];
    forall i | 0 <= i < |s| - 2
      ensures c[i] == Collapse(front, t)[i] && c[1..][i] == Collapse(back, t)[i]
    {
      assert front[i] == s[i] && front[i + 1] == s[i + 1];
      assert back[i] == s[i + 1] && back[i + 1] == s[i + 2];
    }
  }

  /** The value of an `n`-point polynomial is the interpolation of the values of
      its first `n - 1` and its last `n - 1` coefficients. */
  lemma {:induction false} DeCasteljauSplit(s: seq<real>, t: real)
    requires |s| >= 2
    ensures DeCasteljau(s, t)
         == (1.0 - t) * DeCasteljau(s[..|s| - 1], t) + t * DeCasteljau(s[1..], t)
    decreases |s|
  {
    var c := Collapse(s, t);
    assert DeCasteljau(s, t) == DeCasteljau(c, t);
    if |s| == 2 {
      assert DeCasteljau(s[..1], t) == s[0] && DeCasteljau(s[1..], t) == s[1];
    } else {
      DeCasteljauSplit(c, t);
      CollapseEnds(s, t);
      assert DeCasteljau(s[..|s| - 1], t) == DeCasteljau(c[..|c| - 1], t);
      assert DeCasteljau(s[1..], t) == DeCasteljau(c[1..], t);
    }
  }

  /** Evaluation is linear in the coefficients. */
  lemma {:induction false} DeCasteljauLinear(a: seq<real>, b: seq<real>, p: real, q: real, t: real)
    requires |a| == |b| >= 1
    ensures DeCasteljau(Combine(a, b, p, q), t) == p * DeCasteljau(a, t) + q * DeCasteljau(b, t)
    decreases |a|
  {
    if |a| > 1 {
      var ca, cb := Collapse(a, t), Collapse(b, t);
      forall i | 0 <= i < |a| - 1
        ensures Collapse(Combine(a, b, p, q), t)[i] == Combine(ca, cb, p, q)[i]
      {
        calc {
          (p * a[i] + q * b[i]) * (1.0 - t) + (p * a[i + 1] + q * b[i + 1]) * t;
          p * (a[i] * (1.0 - t) + a[i + 1] * t) + q * (b[i] * (1.0 - t) + b[i + 1] * t);
        }
      }
      assert Collapse(Combine(a, b, p, q), t) == Combine(ca, cb, p, q);
      DeCasteljauLinear(ca, cb, p, q, t);
    }
  }

  // ---------------------------------------------------------------------------
  // The derivative curve

  /** A polygon whose points are the scaled differences `(p[i] - q[i]) * m`
      combines, one coordinate at a time, the coordinates of `p` and `q`. */
  lemma ScaledDifferences(p: seq<Vector>, q: seq<Vector>, d: seq<Vector>, m: real)
    requires |p| == |q| == |d|
    requires forall i :: 0 <= i < |d| ==> d[i] == Scale(Subtract(p[i], q[i]), m)
    ensures Xs(d) == Combine(Xs(p), Xs(q), m, -m)
    ensures Ys(d) == Combine(Ys(p), Ys(q), m, -m)
  {
    var cx := Combine(Xs(p), Xs(q), m, -m);
    var cy := Combine(Ys(p), Ys(q), m, -m);
    forall i | 0 <= i < |d|
      ensures Xs(d)[i] == cx[i] && Ys(d)[i] == cy[i]
    {
      assert cx[i] == m * p[i].x + -m * q[i].x;
      assert cy[i] == m * p[i].y + -m * q[i].y;
    }
  }

  /** Each coordinate of the derivative polygon is `(n - 1)` times the
      difference of the coordinates of the last `n - 1` and the first `n - 1`
      control points. */
  lemma DerivativeCoordinates(ps: seq<Vector>)
    requires |ps| >= 2
    ensures var m := (|ps| - 1) as real;
      Xs(DerivativePoints(ps)) == Combine(Xs(ps[1..]), Xs(ps[..|ps| - 1]), m, -m) &&
      Ys(DerivativePoints(ps)) == Combine(Ys(ps[1..]), Ys(ps[..|ps| - 1]), m, -m)
  {
    var d := DerivativePoints(ps);
    forall i | 0 <= i < |d|
      ensures d[i] == Scale(Subtract(ps[1..][i], ps[..|ps| - 1][i]), (|ps| - 1) as real)
    {
    }
    ScaledDifferences(ps[1..], ps[..|ps| - 1], d, (|ps| - 1) as real);
  }

  /** A curve over scaled differences `(p[i] - q[i]) * m` evaluates to the scaled
      difference of the curves over `p` and `q`. */
  lemma EvaluateScaledDifferences(p: seq<Vector>, q: seq<Vector>, d: seq<Vector>, m: real, t: real)
    requires |p| == |q| == |d| >= 1
    requires Xs(d) == Combine(Xs(p), Xs(q), m, -m) && Ys(d) == Combine(Ys(p), Ys(q), m, -m)
    ensures Evaluate(d, t) == Scale(Subtract(Evaluate(p, t), Evaluate(q, t)), m)
  {
    DeCasteljauLinear(Xs(p), Xs(q), m, -m, t);
    DeCasteljauLinear(Ys(p), Ys(q), m, -m, t);
    ScaledDifference(Evaluate(p, t), Evaluate(q, t), m);
  }

  lemma ScaledDifference(a: Vector, b: Vector, m: real)
    ensures Scale(Subtract(a, b), m) == Vector(m * a.x + -m * b.x, m * a.y + -m * b.y)
  {
  }

  /** The hodograph identity: the derivative curve at `t` is `(n - 1)` times the
      difference between the curve of the last `n - 1` control points and the
      curve of the first `n - 1`: the classical hodograph formula for the
      derivative of a Bezier curve (the calculus itself is not modelled). */
  lemma DerivativeIsHodograph(ps: seq<Vector>, t: real)
    requires |ps| >= 2
    ensures Evaluate(DerivativePoints(ps), t)
         == Scale(Subtract(Evaluate(ps[1..], t), Evaluate(ps[..|ps| - 1], t)), (|ps| - 1) as real)
  {
    DerivativeCoordinates(ps);
    EvaluateScaledDifferences(ps[1..], ps[..|ps| - 1], DerivativePoints(ps), (|ps| - 1) as real, t);
  }

  /** The derivative curve starts at `(P[1] - P[0]) * (n - 1)` and ends at
      `(P[n-1] - P[n-2]) * (n - 1)`: the end tangents of the curve. */
  lemma DerivativeAtEnds(ps: seq<Vector>)
    requires |ps| >= 2
    ensures Evaluate(DerivativePoints(ps), 0.0) == Scale(Subtract(ps[1], ps[0]), (|ps| - 1) as real)
    ensures Evaluate(DerivativePoints(ps), 1.0)
         == Scale(Subtract(ps[|ps| - 1], ps[|ps| - 2]), (|ps| - 1) as real)
  {
    EvaluateEndPoints(DerivativePoints(ps));
  }
}
