/** The CvTriangles canvas of src/CvTriangles.java as a class whose fields the
    methods update in place, and the drawing surface it paints on. */
module Canvas {
  import opened Geometry
  import opened Device

  /** The IllegalArgumentException the constructor throws. */
  datatype Error = IllegalArgument(q: real)

  datatype Result<T> = Ok(value: T) | Err(error: Error)

  /** The drawing surface: the segments drawn on it so far, in call order. */
  class Graphics {
    var lines: seq<Segment>

    constructor ()
      ensures lines == []
    {
      lines := [];
    }

    method DrawLine(x1: int, y1: int, x2: int, y2: int)
      modifies this
      ensures lines == old(lines) + [Segment(Pixel(x1, y1), Pixel(x2, y2))]
    {
      lines := lines + [Segment(Pixel(x1, y1), Pixel(x2, y2))];
    }
  }

  /** What Paint(g, width, height, s3) appends to a record `before` when the object is
      Valid (p = 1 - q, 0 < q < 1) and the canvas has at least 21 x 21 pixels:
      150 segments, every one on the canvas, and the first three are the first
      triangle A to B, B to C, C to A. */
  lemma PaintAppendsOnCanvas(before: seq<Segment>, width: int, height: int, s3: real, p: real, q: real)
    requires IsSqrt3(s3) && 21 <= width && 21 <= height && ValidFraction(q) && p == 1.0 - q
    ensures var t0 := Initial(width - 1, height - 1, s3);
      var lines := before + SpiralSegments(t0, p, q, height - 1, TRIANGLE_COUNT);
      && |lines| == |before| + 150
      && (forall i :: |before| <= i < |lines| ==> SegmentOnCanvas(lines[i], width - 1, height - 1))
      && lines[|before| .. |before| + 3] == TriangleSegments(t0, height - 1)
  {
    var t0 := Initial(width - 1, height - 1, s3);
    var r := SpiralSegments(t0, p, q, height - 1, TRIANGLE_COUNT);
    PaintTraceOnCanvas(width - 1, height - 1, s3, p, q);
    SpiralTriangleAt(t0, p, q, height - 1, TRIANGLE_COUNT, 0);
    assert (before + r)[|before| .. |before| + 3] == r[0 .. 3];
    forall i | |before| <= i < |before + r|
      ensures SegmentOnCanvas((before + r)[i], width - 1, height - 1)
    {
      assert (before + r)[i] == r[i - |before|];
    }
  }

  class CvTriangles {
    /** How tight the spiral is, and its complement. */
    const q: real
    const p: real

    /** Logical coordinates of the current triangle's vertices. */
    var xA: real, yA: real, xB: real, yB: real, xC: real, yC: real

    /** The largest device y coordinate, the reference of the vertical flip. */
    var maxY: int

    /** What a successful construction establishes, and nothing ever changes. */
    ghost predicate Valid() {
      ValidFraction(q) && p == 1.0 - q
    }

    /** The current triangle. */
    function Vertices(): Triangle
      reads this
    {
      Triangle(Point(xA, yA), Point(xB, yB), Point(xC, yC))
    }

    /** The body of CvTriangles(float q) once q has passed the range test; the vertex
        fields and maxY keep Java's default zero. */
    constructor Init(q: real)
      requires ValidFraction(q)
      ensures this.q == q && p == 1.0 - q && Valid()
      ensures Vertices() == Triangle(Point(0.0, 0.0), Point(0.0, 0.0), Point(0.0, 0.0)) && maxY == 0
    {
      this.q := q;
      this.p := 1.0 - q;
      xA, yA, xB, yB, xC, yC := 0.0, 0.0, 0.0, 0.0, 0.0, 0.0;
      maxY := 0;
    }

    /** CvTriangles(float q): fails exactly when q <= 0 or q >= 1. */
    static method Create(q: real) returns (r: Result<CvTriangles>)
      ensures r.Err? <==> (q <= 0.0 || q >= 1.0)
      ensures r.Err? ==> r.error == IllegalArgument(q)
      ensures r.Ok? ==> fresh(r.value) && r.value.q == q && r.value.p == 1.0 - q && r.value.Valid()
      ensures r.Ok? ==> 0.0 < r.value.p < 1.0 && r.value.p + r.value.q == 1.0
      ensures r.Ok? ==> r.value.Vertices() == Triangle(Point(0.0, 0.0), Point(0.0, 0.0), Point(0.0, 0.0)) && r.value.maxY == 0
    {
      if q <= 0.0 || q >= 1.0 {
        r := Err(IllegalArgument(q));
      } else {
        var c := new CvTriangles.Init(q);
        r := Ok(c);
      }
    }

    /** CvTriangles(): the spiral factor 0.05, which always passes the range test. */
    static method CreateDefault() returns (c: CvTriangles)
      ensures fresh(c) && c.q == DEFAULT_Q && c.p == 1.0 - DEFAULT_Q && c.Valid()
      ensures c.Vertices() == Triangle(Point(0.0, 0.0), Point(0.0, 0.0), Point(0.0, 0.0)) && c.maxY == 0
    {
      var r := Create(DEFAULT_Q);
      c := r.value;
    }

    /** paint: restart from the canvas size, then draw and advance TRIANGLE_COUNT times.
        PaintAppendsOnCanvas states what the appended segments are on a valid object. */
    method Paint(g: Graphics, width: int, height: int, s3: real)
      requires IsSqrt3(s3)
      modifies this, g
      ensures maxY == height - 1
      ensures g.lines == old(g.lines) + SpiralSegments(Initial(width - 1, height - 1, s3), p, q, maxY, TRIANGLE_COUNT)
      ensures Vertices() == Iterate(Initial(width - 1, height - 1, s3), p, q, TRIANGLE_COUNT)
    {
      InitializeVertices(width - 1, height - 1, s3);
      ghost var first := Vertices();
      for i := 0 to TRIANGLE_COUNT
        invariant maxY == height - 1
        invariant Vertices() == Iterate(first, p, q, i)
        invariant g.lines == old(g.lines) + SpiralSegments(first, p, q, maxY, i)
      {
        SpiralSnoc(first, p, q, maxY, i);
        DrawTriangle(g);
        CalculateNextVertices();
      }
    }

    /** initializeVertices: the new state depends on the arguments alone, so a
        restart after any number of steps equals a fresh start. */
    method InitializeVertices(maxX: int, maxY: int, s3: real)
      requires IsSqrt3(s3)
      modifies this
      ensures this.maxY == maxY
      ensures Vertices() == Initial(maxX, maxY, s3)
    {
      this.maxY := maxY;
      var side := DRAWING_TO_CANVAS_RATIO * Min(maxX, maxY) as real;
      var sideHalf := 0.5 * side;
      var h := sideHalf * s3;
      var xCenter := HalfTowardZero(maxX);
      var yCenter := HalfTowardZero(maxY);
      xA := xCenter as real - sideHalf;
      yA := yCenter as real - 0.5 * h;
      xB := xCenter as real + sideHalf;
      yB := yA;
      xC := xCenter as real;
      yC := yCenter as real + 0.5 * h;
    }

    /** calculateNextVerticies: every new coordinate is computed from the old
        vertices before any field is assigned. */
    method CalculateNextVertices()
      modifies this
      ensures Vertices() == Next(old(Vertices()), p, q)
      ensures maxY == old(maxY)
    {
      var xA1, yA1, xB1, yB1, xC1, yC1;
      xA1 := p * xA + q * xB;
      yA1 := p * yA + q * yB;
      xB1 := p * xB + q * xC;
      yB1 := p * yB + q * yC;
      xC1 := p * xC + q * xA;
      yC1 := p * yC + q * yA;
      ghost var next := Triangle(Point(xA1, yA1), Point(xB1, yB1), Point(xC1, yC1));
      assert next.a == Mix(p, Vertices().a, q, Vertices().b);
      assert next.b == Mix(p, Vertices().b, q, Vertices().c);
      assert next.c == Mix(p, Vertices().c, q, Vertices().a);
      xA := xA1;
      xB := xB1;
      xC := xC1;
      yA := yA1;
      yB := yB1;
      yC := yC1;
    }

    /** drawTriangle: three drawLine calls, A to B, B to C, C to A. */
    method DrawTriangle(g: Graphics)
      modifies g
      ensures g.lines == old(g.lines) + TriangleSegments(Vertices(), maxY)
    {
      g.DrawLine(IX(xA), IY(maxY, yA), IX(xB), IY(maxY, yB));
      g.DrawLine(IX(xB), IY(maxY, yB), IX(xC), IY(maxY, yC));
      g.DrawLine(IX(xC), IY(maxY, yC), IX(xA), IY(maxY, yA));
    }
  }
}
