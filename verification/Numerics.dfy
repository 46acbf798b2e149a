/**
 * The plane and the floating-point library the simulation calls (numpy and math).
 *
 * Square root, cosine, sine, arctangent and exponential cannot be defined in Dafny, so they
 * are function values carried by a `Math` record.  `Lawful` grants them only facts that
 * every faithful implementation has over the reals; rounding, infinities and NaN are not modelled.
 */
module Numerics {

  datatype Point = Point(x: real, y: real)

  const Origin: Point := Point(0.0, 0.0)

  /** np.sqrt / math.sqrt, np.cos, np.sin, np.arctan2(y, x), np.exp and np.pi. */
  datatype Math = Math(
    sqrt: real -> real,
    cos: real -> real,
    sin: real -> real,
    atan2: (real, real) -> real,
    exp: real -> real,
    pi: real)

  ghost predicate Lawful(m: Math) {
    && (forall v: real :: 0.0 <= v ==> 0.0 <= m.sqrt(v) && m.sqrt(v) * m.sqrt(v) == v)
    && (forall t: real :: m.cos(t) * m.cos(t) + m.sin(t) * m.sin(t) == 1.0)
    && (forall v: real :: 0.0 < m.exp(v))
    && (forall v: real :: v <= 0.0 ==> m.exp(v) <= 1.0)
  }

  function Abs(v: real): real { if v < 0.0 then -v else v }

  lemma SquareNonNegative(v: real)
    ensures 0.0 <= v * v
  {
    if v < 0.0 {
      assert v * v == (-v) * (-v);
    }
  }

  /** Euclidean length of the vector (dx, dy), computed as sqrt(dx*dx + dy*dy). */
  function Norm(m: Math, dx: real, dy: real): (r: real)
    ensures Lawful(m) ==> 0.0 <= r
  {
    SquareNonNegative(dx);
    SquareNonNegative(dy);
    m.sqrt(dx * dx + dy * dy)
  }

  /** np.linalg.norm(p - q). */
  function Dist(m: Math, p: Point, q: Point): (r: real)
    ensures Lawful(m) ==> 0.0 <= r
  {
    Norm(m, p.x - q.x, p.y - q.y)
  }

  lemma SquaresOrdered(p: real, q: real)
    requires 0.0 <= p < q
    ensures p * p < q * q
  {
    calc {
      p * p;
    <= p * q;
    < q * q;
    }
  }

  /** For non-negative d and r, comparing d with r is comparing their squares. */
  lemma LessIffSquaresLess(d: real, r: real)
    requires 0.0 <= d && 0.0 <= r
    ensures d < r <==> d * d < r * r
  {
    if d < r {
      SquaresOrdered(d, r);
    } else if r < d {
      SquaresOrdered(r, d);
    }
  }

  lemma SquareIsZero(v: real)
    requires v * v <= 0.0
    ensures v == 0.0
  {
    if v != 0.0 {
      SquaresOrdered(0.0, Abs(v));
    }
  }

  lemma NormFacts(m: Math, dx: real, dy: real)
    requires Lawful(m)
    ensures 0.0 <= Norm(m, dx, dy)
    ensures Norm(m, dx, dy) * Norm(m, dx, dy) == dx * dx + dy * dy
    ensures Norm(m, dx, dy) == 0.0 <==> dx == 0.0 && dy == 0.0
  {
    SquareNonNegative(dx);
    SquareNonNegative(dy);
    var n := Norm(m, dx, dy);
    assert n * n == dx * dx + dy * dy;
    if dx == 0.0 && dy == 0.0 && n != 0.0 {
      SquaresOrdered(0.0, n);
    }
    if n == 0.0 {
      SquareNonNegative(dx);
      SquareNonNegative(dy);
      SquareIsZero(dx);
      SquareIsZero(dy);
    }
  }

  /** A vector whose squared length is r*r, for r >= 0, has length r. */
  lemma NormIs(m: Math, dx: real, dy: real, r: real)
    requires Lawful(m) && 0.0 <= r
    requires dx * dx + dy * dy == r * r
    ensures Norm(m, dx, dy) == r
  {
    NormFacts(m, dx, dy);
    var n := Norm(m, dx, dy);
    if n < r {
      SquaresOrdered(n, r);
    } else if r < n {
      SquaresOrdered(r, n);
    }
  }

  /** Distances do not depend on the direction of subtraction. */
  lemma DistSymmetric(m: Math, p: Point, q: Point)
    ensures Dist(m, p, q) == Dist(m, q, p)
  {
    assert (p.x - q.x) * (p.x - q.x) == (q.x - p.x) * (q.x - p.x);
    assert (p.y - q.y) * (p.y - q.y) == (q.y - p.y) * (q.y - p.y);
  }
}
