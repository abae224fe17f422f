# Spiral of triangles (CvTriangles) in Dafny

This project models `CvTriangles`, the AWT canvas that draws a spiral of 50
nested triangles. Each paint restarts from a large equilateral triangle centred
on the canvas. It then repeats "draw the triangle, then replace every vertex by
the point a fraction q along its edge" (A' = pA + qB, B' = pB + qC,
C' = pC + qA, with p = 1 - q).

The project has three modules:

- `Geometry` (geometry.dfy) holds the recurrence on values: points, triangles,
  `Next`, `Iterate` and the first triangle `Initial`. It also holds the lemmas about
  them: new vertices lie on the old edges, the centroid is kept, equilateral
  triangles stay equilateral, the area shrinks by a fixed factor, the orientation
  never flips, and the spiral stays inside the canvas.
- `Device` (device.dfy) holds `Math.round`, `iX`/`iY`, and the segment trace that
  `drawTriangle` and `paint` produce.
- `Canvas` (canvas.dfy) holds the class `CvTriangles` with its six vertex fields
  and `maxY`, and its methods. Each method is proved against the `Geometry`
  and `Device` functions. The drawing surface is the class `Graphics`, whose
  `DrawLine` appends to a `lines` sequence.

Modelling choices:

- Java `float` arithmetic is idealised as exact arithmetic on `real`. The
  constants `0.95F` and `0.05F` are taken as exactly 95/100 and 5/100.
- `Math.sqrt(3)` is a parameter `s3`. The model assumes only `s3 > 0` and
  `s3 * s3 == 3`.
- Java's `Math.round(float)` is `floor(x + 1/2)`. A tie goes toward plus infinity.
- Java's `maxX / 2` truncates toward zero. It is modelled as such in
  `HalfTowardZero`, so negative extents (a 0-pixel canvas gives -1) need no
  precondition.
- The size `getSize()` returns becomes the `width`/`height` parameters of `Paint`.

Three facts about the code that the model keeps:

- **Orientation.** A and B sit at `yCenter - h/2` and C at `yCenter + h/2`. Logical
  y grows upward, so for positive extents the apex points up (`InitialShape`,
  `InitialNonDegenerate`).
- **Rounding.** `Math.round` rounds ties toward plus infinity (`RoundIsNearest`).
- **Empty canvas.** A zero-size canvas gives extents -1, and the centre is
  `-1 / 2 == 0` in Java (`HalfTowardZero`).

## Model

| member | source | states |
|---|---|---|
| Canvas.CvTriangles.Create | src/CvTriangles.java:63-71 | construction fails with IllegalArgument(q) exactly when q <= 0 or q >= 1; otherwise the new object has this q, p == 1 - q, p + q == 1 and 0 < p < 1, all six vertex coordinates 0 and maxY 0 (Java's field defaults) |
| Canvas.CvTriangles.Init | src/CvTriangles.java:63-71 | the constructor body for a valid q: stores q and p = 1 - q; the vertex fields and maxY keep Java's default 0 |
| Canvas.CvTriangles.CreateDefault | src/CvTriangles.java:52-55 | the no-argument constructor never fails and yields q == 0.05, p == 0.95, all vertex coordinates 0 and maxY 0 |
| Canvas.CvTriangles.InitializeVertices | src/CvTriangles.java:94-109 | stores maxY and sets the six vertex fields to Initial(maxX, maxY, s3), a function of the arguments alone, so a restart after any number of steps equals a fresh start |
| Canvas.CvTriangles.CalculateNextVertices | src/CvTriangles.java:115-130 | simultaneous update: the new triangle is Next of the old one (all new values from the old vertices), maxY unchanged (q, p are immutable) |
| Canvas.CvTriangles.DrawTriangle | src/CvTriangles.java:137-142 | appends exactly the three segments A->B, B->C, C->A of the current triangle in device coordinates, and nothing else |
| Canvas.CvTriangles.Paint | src/CvTriangles.java:77-85 | restarts from Initial(width-1, height-1), appends SpiralSegments of 50 draw-then-advance rounds, and leaves the triangle advanced 50 times |
| Canvas.Graphics.DrawLine | src/CvTriangles.java:139-141 | one drawLine call appends its segment to the surface's record |
| Geometry.HalfTowardZero | src/CvTriangles.java:101-102 | Java's int `/ 2`: remainder in [0, 1] for n >= 0 and in [-1, 0] for n < 0 (truncation toward zero) |
| Geometry.InitialShape | src/CvTriangles.java:94-109 | the first triangle is equilateral with side 0.95 * min(maxX, maxY), base AB horizontal with B.x - A.x == side, C on the perpendicular bisector of AB, bounding box centred on (maxX / 2, maxY / 2); when both extents are positive B is right of A and C above them |
| Geometry.InitialNonDegenerate | src/CvTriangles.java:103-108 | for extents maxX, maxY > 0 (at least 2 x 2 pixels) the first triangle has positive signed area (counter-clockwise, apex up) |
| Geometry.InitialInBox | src/CvTriangles.java:98-108 | for extents of at least 20 the first triangle lies inside [0, maxX] x [0, maxY] |
| Geometry.MixOnEdge | src/CvTriangles.java:118-123 | p*u + q*v with p + q == 1 is collinear with u, v at distance q*|uv| from u and p*|uv| from v |
| Geometry.NextOnEdges | src/CvTriangles.java:118-123 | for 0 < q < 1 each new vertex lies strictly inside the corresponding old edge, a fraction q along it (A' on AB, B' on BC, C' on CA) |
| Geometry.NextKeepsCentroid | src/CvTriangles.java:118-123 | one step keeps xA+xB+xC and yA+yB+yC, hence the centroid |
| Geometry.IterateKeepsCentroid | src/CvTriangles.java:81-84 | any number of steps keeps the vertex sums |
| Geometry.NextScalesArea | src/CvTriangles.java:118-123 | one step multiplies the signed area by p^2 - pq + q^2 |
| Geometry.ContractionBounds | src/CvTriangles.java:65-70 | for an accepted q the factor p^2 - pq + q^2 lies in [1/4, 1): every step strictly shrinks |
| Geometry.NextEquilateral | src/CvTriangles.java:118-123 | one step maps an equilateral triangle to an equilateral one with squared side scaled by p^2 - pq + q^2 |
| Geometry.NextInBox | src/CvTriangles.java:118-123 | one step maps a triangle inside the canvas rectangle to one inside it |
| Geometry.IterateShift | src/CvTriangles.java:81-84 | advancing k times from Next(t) equals advancing k + 1 times from t |
| Geometry.IterateScalesArea | src/CvTriangles.java:81-84 | after k steps the signed area is (p^2 - pq + q^2)^k times the original |
| Geometry.IterateNonDegenerate | src/CvTriangles.java:81-84 | for an accepted q the spiral never flips orientation nor collapses to a segment |
| Geometry.IterateEquilateral | src/CvTriangles.java:81-84 | from an equilateral start the k-th triangle is equilateral with squared side scaled by (p^2 - pq + q^2)^k |
| Geometry.IterateInBox | src/CvTriangles.java:81-84 | a spiral started inside the canvas rectangle stays inside it |
| Geometry.IterateFromEquilateral | src/CvTriangles.java:81-84 | from an equilateral counter-clockwise start, triangle k is equilateral with the scaled side, keeps the vertex sums and stays counter-clockwise |
| Geometry.SpiralFromInitial | src/CvTriangles.java:77-109 | for extents maxX, maxY > 0 (at least 2 x 2 pixels) every triangle paint draws is equilateral with squared side (0.95 min(maxX, maxY))^2 (p^2 - pq + q^2)^k, has the first triangle's centroid, and is counter-clockwise |
| Device.Round | src/CvTriangles.java:152 | Math.round returns the integer r with r - 1/2 <= x < r + 1/2 |
| Device.RoundIsNearest | src/CvTriangles.java:152 | Math.round returns a nearest integer, and of two nearest ones the larger |
| Device.IX | src/CvTriangles.java:150-153 | iX(x) is the device column within half a pixel of x |
| Device.IY | src/CvTriangles.java:161-164 | iY(y) is the row whose flipped value maxY - row is within half a pixel of y |
| Device.MappingOrder | src/CvTriangles.java:150-164 | iX is monotone; iY is antitone (logical up is device down) |
| Device.MappingOntoCanvas | src/CvTriangles.java:150-164 | points of [0, maxX] x [0, maxY] map onto pixels of the canvas; logical y = 0 is device row maxY and y = maxY is row 0 |
| Device.TriangleSegments | src/CvTriangles.java:137-142 | three segments starting at the device images of A, B, C, forming a closed path |
| Device.SpiralSegments | src/CvTriangles.java:81-84 | n draw-then-advance rounds produce 3n segments |
| Device.SpiralSnoc | src/CvTriangles.java:81-84 | round n + 1 appends the segments of the triangle advanced n times (the loop invariant of paint) |
| Device.SpiralTriangleAt | src/CvTriangles.java:81-84 | segments 3k..3k+2 of the trace are the triangle advanced k times; the first three are the initial triangle |
| Device.SpiralOnCanvas | src/CvTriangles.java:81-84 | a spiral started inside the canvas rectangle draws only segments whose endpoints are on the canvas |
| Device.PaintTraceOnCanvas | src/CvTriangles.java:77-85 | one paint pass (TRIANGLE_COUNT = 50 draw-then-advance rounds) on a canvas with extents of at least 20 draws exactly 150 segments, all on the canvas |
| Canvas.PaintAppendsOnCanvas | src/CvTriangles.java:77-85 | what Paint appends on a valid object (0 < q < 1, p = 1 - q) and a canvas of at least 21 x 21 pixels: 150 segments, all on the canvas, the first three being the initial triangle A to B, B to C, C to A |

## Left out

- IEEE-754 `float` rounding. All arithmetic is exact over `real`, so the centroid, edge, equilateral and area identities hold for this idealisation and not bit for bit in Java.
- The `(float)` cast of `Math.sqrt(3)`. The square root is the parameter `s3` with `s3 > 0` and `s3 * s3 == 3`.
- `Math.round` on NaN and on values outside the `int` range, where Java saturates. `Round` is `floor(x + 1/2)` on unbounded integers.
- The AWT `Canvas` base class and `getSize()`. `Paint` takes the width and height as parameters.
- `Graphics` beyond `drawLine`. The surface is a record of the segments drawn, in call order.
- src/Triangles.java, the window that hosts the canvas. It has no logic (frame set-up and exit on close) and is not part of this model.
- Repaints requested by the windowing system, and any concurrency between them.
- Geometry.InitialInBox: stated only for extents of at least 20. For smaller odd extents the truncated centre can put a vertex up to half a pixel outside the rectangle. That vertex still rounds onto the canvas, but the model does not state this.
- Canvas.CvTriangles.Create: Java's range test lets `q = NaN` through (both comparisons are false), leaving `p = NaN`. A real-valued `q` cannot be NaN, so this case is not modelled.
