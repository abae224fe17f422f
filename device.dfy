/** The logical-to-device mapping of src/CvTriangles.java (iX, iY, Math.round) and
    the line segments that drawTriangle and paint hand to the drawing surface. */
module Device {
  import opened Geometry

  /** A device pixel; y grows downward. */
  datatype Pixel = Pixel(x: int, y: int)

  /** The arguments of one Graphics.drawLine call. */
  datatype Segment = Segment(from: Pixel, to: Pixel)

  function Abs(x: real): real {
    if x < 0.0 then -x else x
  }

  /** Java's Math.round on a value in int range: floor(x + 1/2). */
  function Round(x: real): (r: int)
    ensures r as real - 0.5 <= x < r as real + 0.5
  {
    (x + 0.5).Floor
  }

  /** Round picks a nearest integer, and of two nearest ones the larger. */
  lemma RoundIsNearest(x: real, n: int)
    ensures Abs(x - Round(x) as real) <= Abs(x - n as real)
    ensures Abs(x - Round(x) as real) == Abs(x - n as real) ==> n <= Round(x)
  {
  }

  /** iX: the device column nearest to logical x. */
  function IX(x: real): (r: int)
    ensures r as real - 0.5 <= x < r as real + 0.5
  {
    Round(x)
  }

  /** iY: the device row for logical y, flipped about maxY. */
  function IY(maxY: int, y: real): (r: int)
    ensures (maxY - r) as real - 0.5 <= y < (maxY - r) as real + 0.5
  {
    maxY - Round(y)
  }

  function ToDevice(u: Point, maxY: int): Pixel {
    Pixel(IX(u.x), IY(maxY, u.y))
  }

  /** The mapping keeps left-to-right order and reverses bottom-to-top order. */
  lemma MappingOrder(maxY: int, u: Point, v: Point)
    ensures u.x <= v.x ==> IX(u.x) <= IX(v.x)
    ensures u.y <= v.y ==> IY(maxY, v.y) <= IY(maxY, u.y)
  {
  }

  /** A logical point in [0, maxX] x [0, maxY] lands on a pixel of the same rectangle;
      logical y = 0 is the bottom row maxY and logical y = maxY the top row 0. */
  lemma MappingOntoCanvas(maxX: int, maxY: int, u: Point)
    requires InBox(u, maxX, maxY)
    ensures 0 <= ToDevice(u, maxY).x <= maxX && 0 <= ToDevice(u, maxY).y <= maxY
    ensures IY(maxY, 0.0) == maxY && IY(maxY, maxY as real) == 0
  {
    MappingOrder(maxY, Point(0.0, 0.0), u);
    MappingOrder(maxY, u, Point(maxX as real, maxY as real));
  }

  predicate OnCanvas(px: Pixel, maxX: int, maxY: int) {
    0 <= px.x <= maxX && 0 <= px.y <= maxY
  }

  predicate SegmentOnCanvas(s: Segment, maxX: int, maxY: int) {
    OnCanvas(s.from, maxX, maxY) && OnCanvas(s.to, maxX, maxY)
  }

  /** drawTriangle: the closed path A to B, B to C, C to A, in device coordinates. */
  function TriangleSegments(t: Triangle, maxY: int): (r: seq<Segment>)
    ensures |r| == 3
    ensures r[0].from == ToDevice(t.a, maxY) && r[1].from == ToDevice(t.b, maxY) && r[2].from == ToDevice(t.c, maxY)
    ensures forall i :: 0 <= i < 3 ==> r[i].to == r[(i + 1) % 3].from
  {
    var a, b, c := ToDevice(t.a, maxY), ToDevice(t.b, maxY), ToDevice(t.c, maxY);
    [Segment(a, b), Segment(b, c), Segment(c, a)]
  }

  /** paint's loop body n times from triangle t: draw the current triangle, then advance. */
  function SpiralSegments(t: Triangle, p: real, q: real, maxY: int, n: nat): (r: seq<Segment>)
    ensures |r| == 3 * n
    decreases n
  {
    if n == 0 then [] else TriangleSegments(t, maxY) + SpiralSegments(Next(t, p, q), p, q, maxY, n - 1)
  }

  /** One more round of the loop appends the segments of the triangle advanced n times. */
  lemma {:induction false} SpiralSnoc(t: Triangle, p: real, q: real, maxY: int, n: nat)
    ensures SpiralSegments(t, p, q, maxY, n + 1)
         == SpiralSegments(t, p, q, maxY, n) + TriangleSegments(Iterate(t, p, q, n), maxY)
    decreases n
  {
    if n > 0 {
      var t1 := Next(t, p, q);
      SpiralSnoc(t1, p, q, maxY, n - 1);
      IterateShift(t, p, q, n - 1);
      assert SpiralSegments(t, p, q, maxY, n + 1)
          == TriangleSegments(t, maxY) + (SpiralSegments(t1, p, q, maxY, n - 1) + TriangleSegments(Iterate(t, p, q, n), maxY));
    }
  }

  /** Segments 3k, 3k+1, 3k+2 of the trace are the triangle advanced k times; in
      particular the first three are t itself. */
  lemma {:induction false} SpiralTriangleAt(t: Triangle, p: real, q: real, maxY: int, n: nat, k: nat)
    requires k < n
    ensures SpiralSegments(t, p, q, maxY, n)[3 * k .. 3 * k + 3] == TriangleSegments(Iterate(t, p, q, k), maxY)
    decreases k
  {
    var first, rest := TriangleSegments(t, maxY), SpiralSegments(Next(t, p, q), p, q, maxY, n - 1);
    assert SpiralSegments(t, p, q, maxY, n) == first + rest;
    if k == 0 {
      assert (first + rest)[..3] == first;
    } else {
      SpiralTriangleAt(Next(t, p, q), p, q, maxY, n - 1, k - 1);
      IterateShift(t, p, q, k - 1);
      SliceOfConcat(first, rest, 3 * k, 3 * k + 3);
    }
  }

  lemma SliceOfConcat<T>(a: seq<T>, b: seq<T>, i: nat, j: nat)
    requires |a| <= i <= j <= |a| + |b|
    ensures (a + b)[i .. j] == b[i - |a| .. j - |a|]
  {
  }

  /** A spiral started inside the canvas draws only on the canvas. */
  lemma {:induction false} SpiralOnCanvas(t: Triangle, p: real, q: real, maxX: int, maxY: int, n: nat)
    requires ValidFraction(q) && p == 1.0 - q && TriangleInBox(t, maxX, maxY)
    ensures forall i :: 0 <= i < 3 * n ==> SegmentOnCanvas(SpiralSegments(t, p, q, maxY, n)[i], maxX, maxY)
    decreases n
  {
    if n > 0 {
      var first, rest := TriangleSegments(t, maxY), SpiralSegments(Next(t, p, q), p, q, maxY, n - 1);
      NextInBox(t, p, q, maxX, maxY);
      SpiralOnCanvas(Next(t, p, q), p, q, maxX, maxY, n - 1);
      MappingOntoCanvas(maxX, maxY, t.a);
      MappingOntoCanvas(maxX, maxY, t.b);
      MappingOntoCanvas(maxX, maxY, t.c);
      assert forall i :: 0 <= i < 3 ==> SegmentOnCanvas(first[i], maxX, maxY);
      forall i | 0 <= i < 3 * n
        ensures SegmentOnCanvas((first + rest)[i], maxX, maxY)
      {
        if i >= 3 {
          assert (first + rest)[i] == rest[i - 3];
        }
      }
    }
  }

  /** What one paint on a canvas of at least 21 x 21 pixels draws: TRIANGLE_COUNT
      triangles, 150 segments, every endpoint on the canvas. */
  lemma PaintTraceOnCanvas(maxX: int, maxY: int, s3: real, p: real, q: real)
    requires IsSqrt3(s3) && 20 <= maxX && 20 <= maxY && ValidFraction(q) && p == 1.0 - q
    ensures var r := SpiralSegments(Initial(maxX, maxY, s3), p, q, maxY, TRIANGLE_COUNT);
      |r| == 150 && forall i :: 0 <= i < |r| ==> SegmentOnCanvas(r[i], maxX, maxY)
  {
    InitialInBox(maxX, maxY, s3);
    SpiralOnCanvas(Initial(maxX, maxY, s3), p, q, maxX, maxY, TRIANGLE_COUNT);
  }
}
