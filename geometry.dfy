/** Plane vectors over the reals. The generators only ever compare signs of
    dot and cross products of XY displacements, so exact reals stand in for
    the source's `numpy` float arrays. */
module Geometry {

  datatype Vec2 = Vec2(x: real, y: real)

  function Sub(a: Vec2, b: Vec2): Vec2 {
    Vec2(a.x - b.x, a.y - b.y)
  }

  function Scale(a: Vec2, k: real): Vec2 {
    Vec2(a.x * k, a.y * k)
  }

  function Dot(a: Vec2, b: Vec2): real {
    a.x * b.x + a.y * b.y
  }

  /** The z component of the 3-D cross product (`np.cross` on 2-vectors). */
  function Cross(a: Vec2, b: Vec2): real {
    a.x * b.y - a.y * b.x
  }

  function NormSq(a: Vec2): (r: real)
    ensures r >= 0.0
  {
    SquareSign(a.x);
    SquareSign(a.y);
    a.x * a.x + a.y * a.y
  }

  function Abs(v: real): (r: real)
    ensures r >= 0.0 && (r == v || r == -v)
  {
    if v < 0.0 then -v else v
  }

  /** The forward axis rotated 90 degrees clockwise: `(f.y, -f.x)`. */
  function RightAxis(f: Vec2): (r: Vec2)
    ensures Dot(r, f) == 0.0
    ensures NormSq(r) == NormSq(f)
    ensures Cross(f, r) == -NormSq(f)
  {
    Vec2(f.y, -f.x)
  }

  // ---------------------------------------------------------------------
  // Scalar facts, each stated so that callers can use it as written.
  // ---------------------------------------------------------------------

  lemma SquareSign(v: real)
    ensures v * v >= 0.0
    ensures v != 0.0 ==> v * v > 0.0
  {
    if v < 0.0 {
      assert (-v) * (-v) > 0.0;
    }
  }

  /** A factor `k > 0` keeps signs and the order of the other factor. */
  lemma PositiveFactor(v: real, k: real)
    requires k > 0.0
    ensures v * k >= 0.0 <==> v >= 0.0
    ensures v * k < 0.0 <==> v < 0.0
    ensures v * k > 0.0 <==> v > 0.0
  {
    if v > 0.0 { assert v * k > 0.0; }
    if v < 0.0 { assert (-v) * k > 0.0; }
  }

  lemma PositiveFactorOrder(u: real, v: real, k: real)
    requires k > 0.0
    ensures u * k < v * k <==> u < v
  {
    PositiveFactor(v - u, k);
    assert (v - u) * k == v * k - u * k;
  }

  lemma NegateFactor(v: real, k: real)
    ensures -(v * k) == (-v) * k
  {
  }

  /** A positive factor comes out of an absolute value. */
  lemma AbsFactor(v: real, k: real)
    requires k > 0.0
    ensures Abs(v * k) == Abs(v) * k
  {
    PositiveFactor(v, k);
    if v < 0.0 {
      NegateFactor(v, k);
    }
  }

  lemma MulAssoc(u: real, v: real, k: real)
    ensures u * (v * k) == (u * v) * k
  {
  }

  lemma Distrib(u: real, v: real, k: real)
    ensures (u + v) * k == u * k + v * k
  {
  }

  /** Real products seen through a function, so that the solver compares
      them as terms; used only inside the proofs below. */
  function Mul(a: real, b: real): real {
    a * b
  }

  lemma SquareUp(a: real, b: real)
    requires 0.0 <= a < b
    ensures a * a < b * b
  {
    assert Mul(a, a) <= Mul(a, b);
    assert Mul(a, b) < Mul(b, b);
  }

  /** Squaring is strictly monotone on the non-negative reals. */
  lemma SquareMonotone(a: real, b: real)
    requires a >= 0.0 && b >= 0.0
    ensures a < b <==> a * a < b * b
  {
    if a < b {
      SquareUp(a, b);
    } else if b < a {
      SquareUp(b, a);
    }
  }

  /** For a non-negative bound `m`: `d < -m` exactly when `d` is negative
      and its square exceeds `m²`. */
  lemma BelowNegative(d: real, m: real)
    requires m >= 0.0
    ensures d < -m <==> d < 0.0 && d * d > m * m
  {
    assert (-d) * (-d) == d * d;
    if d < 0.0 {
      SquareMonotone(m, -d);
    }
  }

  /** For a non-negative bound `m`: `|d| < m` exactly when `d² < m²`. */
  lemma AbsBelow(d: real, m: real)
    requires m >= 0.0
    ensures Abs(d) < m <==> d * d < m * m
  {
    assert Abs(d) * Abs(d) == d * d;
    SquareMonotone(Abs(d), m);
  }

  // ---------------------------------------------------------------------
  // Vector facts.
  // ---------------------------------------------------------------------

  lemma DotScale(a: Vec2, b: Vec2, k: real)
    ensures Dot(a, Scale(b, k)) == Dot(a, b) * k
  {
    MulAssoc(a.x, b.x, k);
    MulAssoc(a.y, b.y, k);
    Distrib(a.x * b.x, a.y * b.y, k);
  }

  lemma DotScaleRight(a: Vec2, b: Vec2, k: real)
    ensures Dot(a, RightAxis(Scale(b, k))) == Dot(a, RightAxis(b)) * k
  {
    MulAssoc(a.x, b.y, k);
    MulAssoc(a.y, -b.x, k);
    assert -(b.x * k) == (-b.x) * k;
    Distrib(a.x * b.y, a.y * (-b.x), k);
  }

  /** Lagrange's identity in the plane: the squared projections of `a` on
      the forward axis `f` and on its right axis add up to `|a|²·|f|²`. */
  lemma {:induction false} ProjectionLength(a: Vec2, f: Vec2)
    ensures Dot(a, RightAxis(f)) * Dot(a, RightAxis(f)) + Dot(a, f) * Dot(a, f) == NormSq(a) * NormSq(f)
  {
    var p, q := Dot(a, RightAxis(f)), Dot(a, f);
    assert p == a.x * f.y - a.y * f.x;
    assert p * p == a.x * a.x * f.y * f.y - 2.0 * a.x * a.y * f.x * f.y + a.y * a.y * f.x * f.x;
    assert q * q == a.x * a.x * f.x * f.x + 2.0 * a.x * a.y * f.x * f.y + a.y * a.y * f.y * f.y;
  }

  /** Scaling both coordinates by `k` scales the squared length by `k²`;
      when `k²·m = 1` and the squared length was `n·m`, it becomes `n`. */
  lemma ScaledRadius(x: real, y: real, p: real, q: real, k: real, n: real, m: real)
    requires x == p * k && y == q * k
    requires p * p + q * q == n * m
    requires k * k * m == 1.0
    ensures x * x + y * y == n
  {
    ScaledRadiusStep(p, q, k, n, m);
  }

  lemma ScaledRadiusStep(p: real, q: real, k: real, n: real, m: real)
    requires p * p + q * q == n * m
    requires k * k * m == 1.0
    ensures (p * k) * (p * k) + (q * k) * (q * k) == n
  {
    assert (p * k) * (p * k) + (q * k) * (q * k) == (p * p + q * q) * (k * k);
    assert (n * m) * (k * k) == n * (k * k * m);
  }

  /** Two points with the same XY give the zero displacement. */
  lemma SamePointDegenerate(s: Vec2, f: Vec2)
    requires s == f
    ensures Sub(f, s) == Vec2(0.0, 0.0) && NormSq(Sub(f, s)) == 0.0
  {
  }
}
