/** The spiral-of-triangles recurrence of src/CvTriangles.java, on values.
    Java's IEEE `float` arithmetic is idealised as exact arithmetic over `real`,
    so every identity below holds for the idealisation, not bit for bit. */
module Geometry {

  /** A logical point; y grows upward. */
  datatype Point = Point(x: real, y: real)

  /** The vertices (xA, yA), (xB, yB), (xC, yC) of the current triangle. */
  datatype Triangle = Triangle(a: Point, b: Point, c: Point)

  /** Number of triangles drawn by one paint (TRIANGLE_COUNT). */
  const TRIANGLE_COUNT: nat := 50

  /** Side of the first triangle over the side of the bounding square (0.95F, taken exactly). */
  const DRAWING_TO_CANVAS_RATIO: real := 0.95

  /** Spiral factor used by the no-argument constructor (0.05F, taken exactly). */
  const DEFAULT_Q: real := 0.05

  /** The spiral factors accepted by the constructor: the open interval (0, 1). */
  predicate ValidFraction(q: real) {
    0.0 < q < 1.0
  }

  /** What the model assumes of the value `Math.sqrt(3)` returns. */
  predicate IsSqrt3(s: real) {
    0.0 < s && s * s == 3.0
  }

  // ---------------------------------------------------------------------
  // Plane geometry

  /** Squared Euclidean distance. */
  function Dist2(u: Point, v: Point): real {
    (v.x - u.x) * (v.x - u.x) + (v.y - u.y) * (v.y - u.y)
  }

  /** Twice the signed area of the triangle u, v, w: positive when it turns
      counter-clockwise, zero exactly when the three points are collinear. */
  function Orientation(u: Point, v: Point, w: Point): real {
    (v.x - u.x) * (w.y - u.y) - (v.y - u.y) * (w.x - u.x)
  }

  function SignedArea2(t: Triangle): real {
    Orientation(t.a, t.b, t.c)
  }

  /** The sums xA + xB + xC and yA + yB + yC, i.e. three times the centroid. */
  function VertexSum(t: Triangle): Point {
    Point(t.a.x + t.b.x + t.c.x, t.a.y + t.b.y + t.c.y)
  }

  predicate Equilateral(t: Triangle, side2: real) {
    Dist2(t.a, t.b) == side2 && Dist2(t.b, t.c) == side2 && Dist2(t.c, t.a) == side2
  }

  /** w lies on the edge from u to v at fraction lambda of its length from u. */
  predicate OnEdgeAt(u: Point, v: Point, w: Point, lambda: real) {
    Orientation(u, v, w) == 0.0
    && Dist2(u, w) == lambda * lambda * Dist2(u, v)
    && Dist2(w, v) == (1.0 - lambda) * (1.0 - lambda) * Dist2(u, v)
  }

  predicate InBox(u: Point, maxX: int, maxY: int) {
    0.0 <= u.x <= maxX as real && 0.0 <= u.y <= maxY as real
  }

  /** All three vertices lie in the rectangle [0, maxX] x [0, maxY]. */
  predicate TriangleInBox(t: Triangle, maxX: int, maxY: int) {
    InBox(t.a, maxX, maxY) && InBox(t.b, maxX, maxY) && InBox(t.c, maxX, maxY)
  }

  // ---------------------------------------------------------------------
  // calculateNextVerticies

  /** The point p*u + q*v, coordinate by coordinate. */
  function Mix(p: real, u: Point, q: real, v: Point): Point {
    Point(p * u.x + q * v.x, p * u.y + q * v.y)
  }

  /** One step of the spiral: A' = pA + qB, B' = pB + qC, C' = pC + qA, all from the old vertices. */
  function Next(t: Triangle, p: real, q: real): Triangle {
    Triangle(Mix(p, t.a, q, t.b), Mix(p, t.b, q, t.c), Mix(p, t.c, q, t.a))
  }

  /** The triangle after k steps. */
  function Iterate(t: Triangle, p: real, q: real, k: nat): Triangle {
    if k == 0 then t else Next(Iterate(t, p, q, k - 1), p, q)
  }

  /** Factor by which one step scales squared side lengths of an equilateral
      triangle and the signed area of any triangle. */
  function Contraction(p: real, q: real): real {
    p * p - p * q + q * q
  }

  function Power(r: real, k: nat): real {
    if k == 0 then 1.0 else r * Power(r, k - 1)
  }

  // ---------------------------------------------------------------------
  // initializeVertices

  /** Java's `n / 2` on an int: the quotient truncated toward zero. */
  function HalfTowardZero(n: int): (r: int)
    ensures 0 <= n ==> 0 <= n - 2 * r <= 1
    ensures n < 0 ==> -1 <= n - 2 * r <= 0
  {
    if 0 <= n then n / 2 else -((-n) / 2)
  }

  function Min(x: int, y: int): (m: int)
    ensures m <= x && m <= y && (m == x || m == y)
  {
    if x <= y then x else y
  }

  /** Side length of the first triangle. */
  function InitialSide(maxX: int, maxY: int): real {
    DRAWING_TO_CANVAS_RATIO * Min(maxX, maxY) as real
  }

  /** The triangle initializeVertices builds around the centre (cx, cy): base AB of
      half-length sideHalf at height -h/2, apex C at height +h/2. */
  function Upright(cx: real, cy: real, sideHalf: real, h: real): Triangle {
    var yA := cy - 0.5 * h;
    Triangle(Point(cx - sideHalf, yA), Point(cx + sideHalf, yA), Point(cx, cy + 0.5 * h))
  }

  /** The first (biggest) triangle for a canvas whose largest device coordinates are
      maxX and maxY; s3 stands for Math.sqrt(3). */
  function Initial(maxX: int, maxY: int, s3: real): Triangle {
    var sideHalf := 0.5 * InitialSide(maxX, maxY);
    Upright(HalfTowardZero(maxX) as real, HalfTowardZero(maxY) as real, sideHalf, sideHalf * s3)
  }

  // ---------------------------------------------------------------------
  // Lemmas: the initial triangle

  /** t is equilateral with the given side, its base AB is horizontal with
      B.x - A.x == side, C lies on the perpendicular bisector of AB, and its bounding
      box is centred on (cx, cy); PointsUp states the orientation. */
  predicate UprightEquilateral(t: Triangle, side: real, cx: real, cy: real) {
    && Equilateral(t, side * side)
    && t.a.y == t.b.y && t.b.x - t.a.x == side
    && t.c.x == (t.a.x + t.b.x) / 2.0
    && (t.a.x + t.b.x) / 2.0 == cx
    && (t.a.y + t.c.y) / 2.0 == cy
  }

  /** B lies to the right of A and C above them. */
  predicate PointsUp(t: Triangle) {
    t.a.x < t.b.x && t.a.y < t.c.y
  }

  /** The first triangle is equilateral with the side 0.95 * min(maxX, maxY), has a
      horizontal base, and its bounding box is centred on (maxX / 2, maxY / 2); when
      both extents are positive its base runs left to right and its apex points up. */
  lemma InitialShape(maxX: int, maxY: int, s3: real)
    requires IsSqrt3(s3)
    ensures UprightEquilateral(Initial(maxX, maxY, s3), InitialSide(maxX, maxY),
                               HalfTowardZero(maxX) as real, HalfTowardZero(maxY) as real)
    ensures 0 < Min(maxX, maxY) ==> PointsUp(Initial(maxX, maxY, s3))
  {
    var side := InitialSide(maxX, maxY);
    var cx, cy, sh := HalfTowardZero(maxX) as real, HalfTowardZero(maxY) as real, 0.5 * side;
    assert Initial(maxX, maxY, s3) == Upright(cx, cy, sh, sh * s3);
    UprightSqrt3Shape(cx, cy, sh, s3, side);
  }

  lemma UprightSqrt3Shape(cx: real, cy: real, sh: real, s3: real, side: real)
    requires IsSqrt3(s3) && side == 2.0 * sh
    ensures UprightEquilateral(Upright(cx, cy, sh, sh * s3), side, cx, cy)
    ensures 0.0 < sh ==> PointsUp(Upright(cx, cy, sh, sh * s3))
  {
    if 0.0 < sh {
      assert 0.0 < sh * s3;
    }
    SquareTimesSqrt3(s3, sh);
    UprightShape(cx, cy, sh, sh * s3, side);
  }

  lemma SquareTimesSqrt3(s3: real, x: real)
    requires IsSqrt3(s3)
    ensures (x * s3) * (x * s3) == 3.0 * (x * x)
  {
  }

  /** A half-base sh and a height h with h^2 = 3 sh^2 give an upright equilateral
      triangle of side 2 sh. */
  lemma UprightShape(cx: real, cy: real, sh: real, h: real, side: real)
    requires h * h == 3.0 * (sh * sh) && side == 2.0 * sh
    ensures UprightEquilateral(Upright(cx, cy, sh, h), side, cx, cy)
  {
    assert side * side == 4.0 * (sh * sh);
  }

  /** For extents maxX, maxY > 0 the first triangle is not degenerate: C lies
      strictly to the left of the directed base A to B. */
  lemma InitialNonDegenerate(maxX: int, maxY: int, s3: real)
    requires IsSqrt3(s3) && 0 < maxX && 0 < maxY
    ensures SignedArea2(Initial(maxX, maxY, s3)) > 0.0
  {
    var t, side := Initial(maxX, maxY, s3), InitialSide(maxX, maxY);
    var sh := 0.5 * side;
    var h := sh * s3;
    assert side > 0.0;
    assert h > 0.0;
    assert SignedArea2(t) == side * h;
  }

  /** Half the height of an equilateral triangle is at most half its side. */
  lemma HalfHeightBound(sideHalf: real, s3: real)
    requires IsSqrt3(s3) && 0.0 <= sideHalf
    ensures 0.0 <= 0.5 * (sideHalf * s3) <= sideHalf
  {
    assert s3 < 2.0;
    MulNonNegative(sideHalf, 2.0 - s3);
  }

  /** The first triangle lies inside the canvas once both extents are at least 20;
      for smaller ones the 0.95 margin is less than the half pixel that the
      truncated centre loses. */
  lemma InitialInBox(maxX: int, maxY: int, s3: real)
    requires IsSqrt3(s3) && 20 <= maxX && 20 <= maxY
    ensures TriangleInBox(Initial(maxX, maxY, s3), maxX, maxY)
  {
    var sh := 0.5 * InitialSide(maxX, maxY);
    HalfHeightBound(sh, s3);
    UprightInBox(maxX, maxY, Min(maxX, maxY), HalfTowardZero(maxX), HalfTowardZero(maxY), sh, sh * s3);
  }

  /** The linear core of InitialInBox: a triangle with half-base sideHalf = 0.475 * m
      and half-height at most sideHalf, centred on the truncated canvas centre. */
  lemma UprightInBox(maxX: int, maxY: int, m: int, cx: int, cy: int, sideHalf: real, h: real)
    requires 20 <= m <= maxX && m <= maxY && sideHalf == 0.5 * (0.95 * m as real)
    requires 0 <= maxX - 2 * cx <= 1 && 0 <= maxY - 2 * cy <= 1
    requires 0.0 <= 0.5 * h <= sideHalf
    ensures TriangleInBox(Upright(cx as real, cy as real, sideHalf, h), maxX, maxY)
  {
  }

  // ---------------------------------------------------------------------
  // Lemmas: one step of the recurrence

  /** p*u + q*v with p + q == 1 lies on the edge from u to v at fraction q from u. */
  lemma MixOnEdge(p: real, u: Point, q: real, v: Point)
    requires p + q == 1.0
    ensures OnEdgeAt(u, v, Mix(p, u, q, v), q)
  {
  }

  /** Each new vertex lies strictly inside an edge of the old triangle, a fraction q
      along it: A' on AB, B' on BC, C' on CA. */
  lemma NextOnEdges(t: Triangle, p: real, q: real)
    requires ValidFraction(q) && p == 1.0 - q
    ensures 0.0 < q < 1.0 && 0.0 < p < 1.0
    ensures OnEdgeAt(t.a, t.b, Next(t, p, q).a, q)
    ensures OnEdgeAt(t.b, t.c, Next(t, p, q).b, q)
    ensures OnEdgeAt(t.c, t.a, Next(t, p, q).c, q)
  {
    MixOnEdge(p, t.a, q, t.b);
    MixOnEdge(p, t.b, q, t.c);
    MixOnEdge(p, t.c, q, t.a);
  }

  /** A step keeps the vertex sums, hence the centroid. */
  lemma NextKeepsCentroid(t: Triangle, p: real, q: real)
    requires p + q == 1.0
    ensures VertexSum(Next(t, p, q)) == VertexSum(t)
  {
    SumIdentity(p, q, t.a.x, t.b.x, t.c.x);
    SumIdentity(p, q, t.a.y, t.b.y, t.c.y);
  }

  lemma SumIdentity(p: real, q: real, a: real, b: real, c: real)
    requires p + q == 1.0
    ensures (p * a + q * b) + (p * b + q * c) + (p * c + q * a) == a + b + c
  {
  }

  lemma {:induction false} IterateKeepsCentroid(t: Triangle, p: real, q: real, k: nat)
    requires p + q == 1.0
    ensures VertexSum(Iterate(t, p, q, k)) == VertexSum(t)
  {
    if k > 0 {
      IterateKeepsCentroid(t, p, q, k - 1);
      NextKeepsCentroid(Iterate(t, p, q, k - 1), p, q);
    }
  }

  /** A step scales the signed area by Contraction(p, q). */
  lemma NextScalesArea(t: Triangle, p: real, q: real)
    ensures SignedArea2(Next(t, p, q)) == Contraction(p, q) * SignedArea2(t)
  {
    AreaIdentity(p, q, t.a.x, t.a.y, t.b.x, t.b.y, t.c.x, t.c.y);
  }

  /** The polynomial identity behind NextScalesArea, coordinate by coordinate. */
  lemma AreaIdentity(p: real, q: real, xa: real, ya: real, xb: real, yb: real, xc: real, yc: real)
    ensures ((p * xb + q * xc) - (p * xa + q * xb)) * ((p * yc + q * ya) - (p * ya + q * yb))
          - ((p * yb + q * yc) - (p * ya + q * yb)) * ((p * xc + q * xa) - (p * xa + q * xb))
         == Contraction(p, q) * ((xb - xa) * (yc - ya) - (yb - ya) * (xc - xa))
  {
  }

  /** For 0 < q < 1 and p = 1 - q the contraction factor lies in [1/4, 1). */
  lemma ContractionBounds(p: real, q: real)
    requires ValidFraction(q) && p == 1.0 - q
    ensures 0.25 <= Contraction(p, q) < 1.0
  {
    assert Contraction(p, q) == 1.0 - 3.0 * p * q by {
      assert (p + q) * (p + q) == 1.0;
    }
    assert p * q > 0.0;
    assert 0.25 - p * q == (p - q) * (p - q) / 4.0 by {
      assert (p - q) * (p - q) == (p + q) * (p + q) - 4.0 * p * q;
    }
  }

  lemma EdgeOfNext(a: Point, b: Point, c: Point, p: real, q: real, side2: real)
    requires Dist2(a, b) == side2 && Dist2(b, c) == side2 && Dist2(c, a) == side2
    ensures Dist2(Mix(p, a, q, b), Mix(p, b, q, c)) == side2 * Contraction(p, q)
  {
  }

  /** A step maps an equilateral triangle to an equilateral one whose squared side
      is scaled by Contraction(p, q). */
  lemma NextEquilateral(t: Triangle, p: real, q: real, side2: real)
    requires Equilateral(t, side2)
    ensures Equilateral(Next(t, p, q), side2 * Contraction(p, q))
  {
    EdgeOfNext(t.a, t.b, t.c, p, q, side2);
    EdgeOfNext(t.b, t.c, t.a, p, q, side2);
    EdgeOfNext(t.c, t.a, t.b, p, q, side2);
  }

  /** A step maps a triangle inside the box to one inside the box. */
  lemma NextInBox(t: Triangle, p: real, q: real, maxX: int, maxY: int)
    requires ValidFraction(q) && p == 1.0 - q && TriangleInBox(t, maxX, maxY)
    ensures TriangleInBox(Next(t, p, q), maxX, maxY)
  {
    forall u: Point, v: Point | InBox(u, maxX, maxY) && InBox(v, maxX, maxY)
      ensures InBox(Mix(p, u, q, v), maxX, maxY)
    {
      MixBetween(p, q, u.x, v.x, maxX as real);
      MixBetween(p, q, u.y, v.y, maxY as real);
    }
  }

  lemma MixBetween(p: real, q: real, s: real, t: real, hi: real)
    requires 0.0 <= p && 0.0 <= q && p + q == 1.0
    requires 0.0 <= s <= hi && 0.0 <= t <= hi
    ensures 0.0 <= p * s + q * t <= hi
  {
    MulNonNegative(p, hi - s);
    MulNonNegative(q, hi - t);
    MulNonNegative(p, s);
    MulNonNegative(q, t);
    assert p * hi + q * hi == (p + q) * hi;
  }

  lemma MulNonNegative(a: real, b: real)
    requires 0.0 <= a && 0.0 <= b
    ensures 0.0 <= a * b
  {
  }

  // ---------------------------------------------------------------------
  // Lemmas: k steps

  lemma {:induction false} IterateShift(t: Triangle, p: real, q: real, k: nat)
    ensures Iterate(Next(t, p, q), p, q, k) == Iterate(t, p, q, k + 1)
  {
    if k > 0 {
      IterateShift(t, p, q, k - 1);
    }
  }

  /** After k steps the signed area is Contraction(p, q)^k times the original one. */
  lemma {:induction false} IterateScalesArea(t: Triangle, p: real, q: real, k: nat)
    ensures SignedArea2(Iterate(t, p, q, k)) == Power(Contraction(p, q), k) * SignedArea2(t)
  {
    if k > 0 {
      IterateScalesArea(t, p, q, k - 1);
      NextScalesArea(Iterate(t, p, q, k - 1), p, q);
    }
  }

  lemma {:induction false} PowerPositive(r: real, k: nat)
    requires 0.0 < r
    ensures 0.0 < Power(r, k)
  {
    if k > 0 {
      PowerPositive(r, k - 1);
    }
  }

  /** The spiral never degenerates: with 0 < q < 1 every triangle keeps the
      orientation of the first one, so its vertices are never collinear. */
  lemma IterateNonDegenerate(t: Triangle, p: real, q: real, k: nat)
    requires ValidFraction(q) && p == 1.0 - q
    ensures SignedArea2(t) > 0.0 ==> SignedArea2(Iterate(t, p, q, k)) > 0.0
    ensures SignedArea2(t) < 0.0 ==> SignedArea2(Iterate(t, p, q, k)) < 0.0
  {
    ContractionBounds(p, q);
    PowerPositive(Contraction(p, q), k);
    IterateScalesArea(t, p, q, k);
  }

  /** Starting from an equilateral triangle, the k-th triangle is equilateral with
      squared side side2 * Contraction(p, q)^k. */
  lemma {:induction false} IterateEquilateral(t: Triangle, p: real, q: real, side2: real, k: nat)
    requires Equilateral(t, side2)
    ensures Equilateral(Iterate(t, p, q, k), side2 * Power(Contraction(p, q), k))
  {
    if k > 0 {
      var r := Contraction(p, q);
      IterateEquilateral(t, p, q, side2, k - 1);
      NextEquilateral(Iterate(t, p, q, k - 1), p, q, side2 * Power(r, k - 1));
      assert side2 * Power(r, k - 1) * r == side2 * Power(r, k);
    }
  }

  lemma {:induction false} IterateInBox(t: Triangle, p: real, q: real, maxX: int, maxY: int, k: nat)
    requires ValidFraction(q) && p == 1.0 - q && TriangleInBox(t, maxX, maxY)
    ensures TriangleInBox(Iterate(t, p, q, k), maxX, maxY)
  {
    if k > 0 {
      IterateInBox(t, p, q, maxX, maxY, k - 1);
      NextInBox(Iterate(t, p, q, k - 1), p, q, maxX, maxY);
    }
  }

  /** The k-th triangle paint draws, for extents maxX, maxY > 0: equilateral with
      its squared side scaled by Contraction(p, q)^k, the same vertex sums (centroid)
      as the first triangle, and the same counter-clockwise orientation. */
  lemma SpiralFromInitial(maxX: int, maxY: int, s3: real, p: real, q: real, k: nat)
    requires IsSqrt3(s3) && 0 < maxX && 0 < maxY && ValidFraction(q) && p == 1.0 - q
    ensures var t0, side := Initial(maxX, maxY, s3), InitialSide(maxX, maxY);
      SpiralStep(t0, p, q, side * side, k)
  {
    var t0, side := Initial(maxX, maxY, s3), InitialSide(maxX, maxY);
    InitialShape(maxX, maxY, s3);
    InitialNonDegenerate(maxX, maxY, s3);
    IterateFromEquilateral(t0, p, q, side * side, k);
  }

  /** Triangle k of the spiral from t0 is equilateral with squared side
      side2 * Contraction(p, q)^k, keeps t0's vertex sums, and turns counter-clockwise. */
  predicate SpiralStep(t0: Triangle, p: real, q: real, side2: real, k: nat) {
    && Equilateral(Iterate(t0, p, q, k), side2 * Power(Contraction(p, q), k))
    && VertexSum(Iterate(t0, p, q, k)) == VertexSum(t0)
    && SignedArea2(Iterate(t0, p, q, k)) > 0.0
  }

  lemma IterateFromEquilateral(t0: Triangle, p: real, q: real, side2: real, k: nat)
    requires ValidFraction(q) && p == 1.0 - q && Equilateral(t0, side2) && SignedArea2(t0) > 0.0
    ensures SpiralStep(t0, p, q, side2, k)
  {
    IterateEquilateral(t0, p, q, side2, k);
    IterateKeepsCentroid(t0, p, q, k);
    IterateNonDegenerate(t0, p, q, k);
  }
}
