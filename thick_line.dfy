// The thick-line construction of polygon.py: a line segment with a thickness
// becomes a four-vertex rectangle, by a three-way case split on the segment's
// orientation (vertical, then horizontal, then the general trigonometric case).

module ThickLine {
  import opened Plane

  /** One input record: {start: [x, y], end: [x, y], thickness: t}. */
  datatype Line = Line(start: Point, end: Point, thickness: real)

  /**
   * An angle, given by its sine and its cosine. The program obtains one from
   * math.atan2 and immediately takes math.sin and math.cos of it; the model
   * receives that pair from a caller-supplied `atan2` instead.
   */
  datatype Angle = Angle(sin: real, cos: real)

  /**
   * What atan2(y, x) guarantees for (x, y) != (0, 0), stated without square
   * roots: the angle lies on the unit circle, points along (x, y), and in the
   * same direction as (x, y) rather than the opposite one.
   */
  ghost predicate IsAtan2(a: Angle, y: real, x: real) {
    a.sin * a.sin + a.cos * a.cos == 1.0 &&
    a.sin * x == a.cos * y &&
    a.sin * y + a.cos * x > 0.0
  }

  function HalfThickness(line: Line): real {
    line.thickness / 2.0
  }

  /** The segment as a vector, from start to end. */
  function Direction(line: Line): Point {
    Vector(line.start, line.end)
  }

  predicate IsVertical(line: Line) {
    line.start.x == line.end.x
  }

  predicate IsHorizontal(line: Line) {
    line.start.y == line.end.y
  }

  /**
   * The general formula: with (dx, dy) = (h sin a, h cos a), where a is the
   * segment's direction angle, each endpoint is moved by +(-dx, dy) and by
   * -(-dx, dy) = (dx, -dy).
   */
  function OffsetRectangle(line: Line, a: Angle): (r: Ring)
    ensures |r| == 4
  {
    var h := HalfThickness(line);
    var dx := h * a.sin;
    var dy := h * a.cos;
    [ Point(line.start.x - dx, line.start.y + dy),
      Point(line.start.x + dx, line.start.y - dy),
      Point(line.end.x + dx, line.end.y - dy),
      Point(line.end.x - dx, line.end.y + dy) ]
  }

  /**
   * create_rectangle_from_line. `atan2(y, x)` stands for the pair
   * (sin(atan2(y, x)), cos(atan2(y, x))) that the diagonal case computes.
   * The branches test exact equality of coordinates, vertical first.
   */
  function RectangleFromLine(line: Line, atan2: (real, real) -> Angle): (r: Ring)
    ensures |r| == 4
  {
    var x1, y1, x2, y2 := line.start.x, line.start.y, line.end.x, line.end.y;
    var h := HalfThickness(line);
    if x1 == x2 then
      [Point(x1 - h, y1), Point(x1 + h, y1), Point(x1 + h, y2), Point(x1 - h, y2)]
    else if y1 == y2 then
      [Point(x1, y1 - h), Point(x2, y1 - h), Point(x2, y1 + h), Point(x1, y1 + h)]
    else
      OffsetRectangle(line, atan2(y2 - y1, x2 - x1))
  }

  /** The list comprehension that builds one rectangle per input line. */
  function Rectangles(lines: seq<Line>, atan2: (real, real) -> Angle): (rs: seq<Ring>)
    ensures |rs| == |lines|
    ensures forall i :: 0 <= i < |lines| ==> |rs[i]| == 4 && rs[i] == RectangleFromLine(lines[i], atan2)
  {
    if lines == [] then []
    else [RectangleFromLine(lines[0], atan2)] + Rectangles(lines[1..], atan2)
  }

  // ---------------------------------------------------------------------------
  // The vertical branch

  /**
   * A vertical segment gets the vertices (x1-h, y1), (x1+h, y1), (x1+h, y2),
   * (x1-h, y2): an axis-aligned box whose x-extent is the thickness and whose
   * y-extent is the segment's length, with signed area t * (y2 - y1).
   */
  lemma VerticalBranch(line: Line, atan2: (real, real) -> Angle)
    requires IsVertical(line)
    ensures var r, h := RectangleFromLine(line, atan2), HalfThickness(line);
      r == [ Point(line.start.x - h, line.start.y), Point(line.start.x + h, line.start.y),
             Point(line.start.x + h, line.end.y), Point(line.start.x - h, line.end.y) ] &&
      Width(r) == Abs(line.thickness) &&
      Height(r) == Abs(line.end.y - line.start.y) &&
      TwiceSignedArea(r) == 2.0 * line.thickness * (line.end.y - line.start.y)
  {
    var r := RectangleFromLine(line, atan2);
    QuadExtents(r[0], r[1], r[2], r[3]);
    QuadArea(r[0], r[1], r[2], r[3]);
    assert r == [r[0], r[1], r[2], r[3]];
  }

  /**
   * The vertical test comes first, so a zero-length segment is treated as
   * vertical: it collapses to a horizontal slit of width |t| and no area.
   */
  lemma ZeroLengthSegment(line: Line, atan2: (real, real) -> Angle)
    requires line.start == line.end
    ensures var r, h := RectangleFromLine(line, atan2), HalfThickness(line);
      r == [ Point(line.start.x - h, line.start.y), Point(line.start.x + h, line.start.y),
             Point(line.start.x + h, line.start.y), Point(line.start.x - h, line.start.y) ] &&
      Width(r) == Abs(line.thickness) && Height(r) == 0.0 && TwiceSignedArea(r) == 0.0
  {
    VerticalBranch(line, atan2);
  }

  // ---------------------------------------------------------------------------
  // The horizontal branch

  /**
   * A horizontal, non-vertical segment gets (x1, y1-h), (x2, y1-h), (x2, y1+h),
   * (x1, y1+h): the y-extent is the thickness, the x-extent the segment's
   * length, and the signed area t * (x2 - x1).
   */
  lemma HorizontalBranch(line: Line, atan2: (real, real) -> Angle)
    requires !IsVertical(line) && IsHorizontal(line)
    ensures var r, h := RectangleFromLine(line, atan2), HalfThickness(line);
      r == [ Point(line.start.x, line.start.y - h), Point(line.end.x, line.start.y - h),
             Point(line.end.x, line.start.y + h), Point(line.start.x, line.start.y + h) ] &&
      Height(r) == Abs(line.thickness) &&
      Width(r) == Abs(line.end.x - line.start.x) &&
      TwiceSignedArea(r) == 2.0 * line.thickness * (line.end.x - line.start.x)
  {
    var r := RectangleFromLine(line, atan2);
    QuadExtents(r[0], r[1], r[2], r[3]);
    QuadArea(r[0], r[1], r[2], r[3]);
    assert r == [r[0], r[1], r[2], r[3]];
  }

  // ---------------------------------------------------------------------------
  // The diagonal branch

  /**
   * A segment that is neither vertical nor horizontal takes the general
   * formula with the angle atan2(y2 - y1, x2 - x1); whatever that angle is,
   * the first two vertices are centred on the start point and the last two on
   * the end point.
   */
  lemma DiagonalBranch(line: Line, atan2: (real, real) -> Angle)
    requires !IsVertical(line) && !IsHorizontal(line)
    ensures var r, d := RectangleFromLine(line, atan2), Direction(line);
      r == OffsetRectangle(line, atan2(d.y, d.x)) &&
      Midpoint(r[0], r[1]) == line.start && Midpoint(r[2], r[3]) == line.end
  {
  }

  /** (sin a)^2 + (cos a)^2 = 1 and sin a * x = cos a * y imply (sin a * y + cos a * x)^2 = x^2 + y^2. */
  lemma ProjectedLengthSquared(a: Angle, y: real, x: real)
    requires a.sin * a.sin + a.cos * a.cos == 1.0 && a.sin * x == a.cos * y
    ensures (a.sin * y + a.cos * x) * (a.sin * y + a.cos * x) == x * x + y * y
  {
  }

  /**
   * The offset (-dx, dy) that the general formula applies at the start point
   * (and, negated, at the second vertex) is perpendicular to the segment and
   * has length h; so the cap from vertex 0 to vertex 1 is perpendicular to the
   * segment and has length |t|, and likewise the cap from vertex 3 to vertex 2.
   */
  lemma OffsetIsPerpendicular(line: Line, a: Angle)
    requires IsAtan2(a, Direction(line).y, Direction(line).x)
    ensures var r, d, h := OffsetRectangle(line, a), Direction(line), HalfThickness(line);
      var offset := Vector(line.start, r[0]);
      Dot(offset, d) == 0.0 && Norm2(offset) == h * h &&
      Dot(Vector(r[0], r[1]), d) == 0.0 && Dot(Vector(r[3], r[2]), d) == 0.0 &&
      Norm2(Vector(r[0], r[1])) == line.thickness * line.thickness &&
      Norm2(Vector(r[3], r[2])) == line.thickness * line.thickness
  {
  }

  /**
   * Whatever the angle, the general formula puts the first two vertices
   * symmetrically about the start point and the last two about the end point,
   * and both long sides (vertex 0 to 3, vertex 1 to 2) equal the segment vector.
   */
  lemma OffsetSidesFollowSegment(line: Line, a: Angle)
    ensures var r, d := OffsetRectangle(line, a), Direction(line);
      Midpoint(r[0], r[1]) == line.start && Midpoint(r[2], r[3]) == line.end &&
      Vector(r[0], r[3]) == d && Vector(r[1], r[2]) == d
  {
  }

  /**
   * The signed area of the general formula's ring is t * L, where
   * L = sin a * (y2 - y1) + cos a * (x2 - x1) is the segment's length: L > 0
   * and L^2 = |end - start|^2. So the area is thickness times length (the caps
   * add nothing) and the ring runs counter-clockwise when t > 0.
   */
  lemma OffsetArea(line: Line, a: Angle)
    requires IsAtan2(a, Direction(line).y, Direction(line).x)
    ensures var r, d := OffsetRectangle(line, a), Direction(line);
      var len := a.sin * d.y + a.cos * d.x;
      len > 0.0 && len * len == Norm2(d) &&
      TwiceSignedArea(r) == 2.0 * line.thickness * len
  {
    var r, d, h := OffsetRectangle(line, a), Direction(line), HalfThickness(line);
    var s, c := a.sin, a.cos;
    ProjectedLengthSquared(a, d.y, d.x);
    var dx, dy := h * s, h * c;
    assert Vector(r[0], r[1]) == Point(2.0 * dx, -2.0 * dy);
    assert Vector(r[0], r[3]) == d;
    assert r == [r[0], r[1], r[2], r[3]];
    ParallelogramArea(r[0], r[1], r[2], r[3]);
    assert Cross(Point(2.0 * dx, -2.0 * dy), d) == 2.0 * h * (s * d.y + c * d.x);
  }

  /**
   * The general formula yields a true rectangle around the segment when the
   * angle is the segment's direction: the offset (-dx, dy) at the start is
   * perpendicular to the segment and has length h; both long sides equal the
   * segment vector; both caps are perpendicular to it and have length |t|
   * (flat and not extended); and the signed area is t times the segment's
   * length, counter-clockwise for t > 0.
   */
  lemma OffsetRectangleGeometry(line: Line, a: Angle)
    requires IsAtan2(a, Direction(line).y, Direction(line).x)
    ensures var r, d, h := OffsetRectangle(line, a), Direction(line), HalfThickness(line);
      var offset := Vector(line.start, r[0]);
      var len := a.sin * d.y + a.cos * d.x;
      Dot(offset, d) == 0.0 && Norm2(offset) == h * h &&
      Midpoint(r[0], r[1]) == line.start && Midpoint(r[2], r[3]) == line.end &&
      Vector(r[0], r[3]) == d && Vector(r[1], r[2]) == d &&
      Dot(Vector(r[0], r[1]), d) == 0.0 && Dot(Vector(r[3], r[2]), d) == 0.0 &&
      Norm2(Vector(r[0], r[1])) == line.thickness * line.thickness &&
      Norm2(Vector(r[3], r[2])) == line.thickness * line.thickness &&
      len > 0.0 && len * len == Norm2(d) &&
      TwiceSignedArea(r) == 2.0 * line.thickness * len
  {
    OffsetIsPerpendicular(line, a);
    OffsetSidesFollowSegment(line, a);
    OffsetArea(line, a);
  }

  /** The diagonal branch, under the hypotheses atan2 guarantees, inherits all of the above. */
  lemma DiagonalBranchGeometry(line: Line, atan2: (real, real) -> Angle)
    requires !IsVertical(line) && !IsHorizontal(line)
    requires IsAtan2(atan2(Direction(line).y, Direction(line).x), Direction(line).y, Direction(line).x)
    ensures var r, d, h := RectangleFromLine(line, atan2), Direction(line), HalfThickness(line);
      var offset := Vector(line.start, r[0]);
      Dot(offset, d) == 0.0 && Norm2(offset) == h * h &&
      Vector(r[0], r[3]) == d && Vector(r[1], r[2]) == d &&
      Dot(Vector(r[0], r[1]), d) == 0.0 && Norm2(Vector(r[0], r[1])) == line.thickness * line.thickness &&
      TwiceSignedArea(r) * TwiceSignedArea(r) == 4.0 * line.thickness * line.thickness * Norm2(d)
  {
    var d := Direction(line);
    var a := atan2(d.y, d.x);
    OffsetRectangleGeometry(line, a);
    var len := a.sin * d.y + a.cos * d.x;
    var t := line.thickness;
    assert (2.0 * t * len) * (2.0 * t * len) == 4.0 * t * t * (len * len);
  }

  // ---------------------------------------------------------------------------
  // All three branches together

  /**
   * On an axis-parallel direction atan2 is exact: (0, y) gives the angle
   * +-pi/2 and (x, 0) gives 0 or pi.
   */
  lemma AxisAngle(a: Angle, y: real, x: real)
    requires IsAtan2(a, y, x) && (x == 0.0 || y == 0.0)
    ensures x == 0.0 ==> a == Angle(if y > 0.0 then 1.0 else -1.0, 0.0)
    ensures y == 0.0 ==> a == Angle(0.0, if x > 0.0 then 1.0 else -1.0)
  {
    if x == 0.0 {
      assert a.cos * y == 0.0 && a.sin * y > 0.0;
      assert a.cos == 0.0;
    } else {
      assert a.sin * x == 0.0 && a.cos * x > 0.0;
      assert a.sin == 0.0;
    }
  }

  /**
   * The axis-aligned branches are shortcuts of the general formula: for any
   * segment of non-zero length, with exact trigonometry, the branch taken
   * produces the same ring as the general formula, up to where the ring starts
   * and in which direction it is walked.
   */
  lemma BranchesAgreeWithOffsetRectangle(line: Line, atan2: (real, real) -> Angle)
    requires line.start != line.end
    requires IsAtan2(atan2(Direction(line).y, Direction(line).x), Direction(line).y, Direction(line).x)
    ensures SameRing(RectangleFromLine(line, atan2), OffsetRectangle(line, atan2(Direction(line).y, Direction(line).x)))
  {
    var d := Direction(line);
    var a := atan2(d.y, d.x);
    var r, g := RectangleFromLine(line, atan2), OffsetRectangle(line, a);
    var rev := Reverse(g);
    assert rev == [g[3], g[2], g[1], g[0]];
    if IsVertical(line) {
      AxisAngle(a, d.y, d.x);
      if d.y > 0.0 {
        assert r == Rotate(g, 0);
      } else {
        assert r == Rotate(rev, 2);
      }
    } else if IsHorizontal(line) {
      AxisAngle(a, d.y, d.x);
      if d.x > 0.0 {
        assert r == Rotate(g, 1);
      } else {
        assert r == Rotate(rev, 3);
      }
    } else {
      assert r == Rotate(g, 0);
    }
  }

  /**
   * The vertex v lies at distance |t|/2 from the segment's supporting line
   * (squared, and without dividing: cross(d, v - start)^2 = h^2 |d|^2), and its
   * projection onto the segment falls on the start point or on the end point.
   */
  ghost predicate AtHalfThickness(line: Line, v: Point) {
    var d, h, w := Direction(line), HalfThickness(line), Vector(line.start, v);
    Cross(d, w) * Cross(d, w) == h * h * Norm2(d) &&
    (Dot(d, w) == 0.0 || Dot(d, w) == Norm2(d))
  }

  /** A vertex that is an endpoint moved by a perpendicular offset of length h is at half thickness. */
  lemma OffsetEndpointAtHalfThickness(line: Line, v: Point, k: real, offset: Point)
    requires k == 0.0 || k == 1.0
    requires v == Point(line.start.x + k * Direction(line).x + offset.x, line.start.y + k * Direction(line).y + offset.y)
    requires Dot(offset, Direction(line)) == 0.0
    requires Norm2(offset) == HalfThickness(line) * HalfThickness(line)
    ensures AtHalfThickness(line, v)
  {
  }

  lemma VerticalVerticesAtHalfThickness(line: Line, atan2: (real, real) -> Angle)
    requires IsVertical(line)
    ensures var r := RectangleFromLine(line, atan2);
      AtHalfThickness(line, r[0]) && AtHalfThickness(line, r[1]) &&
      AtHalfThickness(line, r[2]) && AtHalfThickness(line, r[3])
  {
    var r, h := RectangleFromLine(line, atan2), HalfThickness(line);
    OffsetEndpointAtHalfThickness(line, r[0], 0.0, Point(-h, 0.0));
    OffsetEndpointAtHalfThickness(line, r[1], 0.0, Point(h, 0.0));
    OffsetEndpointAtHalfThickness(line, r[2], 1.0, Point(h, 0.0));
    OffsetEndpointAtHalfThickness(line, r[3], 1.0, Point(-h, 0.0));
  }

  lemma HorizontalVerticesAtHalfThickness(line: Line, atan2: (real, real) -> Angle)
    requires !IsVertical(line) && IsHorizontal(line)
    ensures var r := RectangleFromLine(line, atan2);
      AtHalfThickness(line, r[0]) && AtHalfThickness(line, r[1]) &&
      AtHalfThickness(line, r[2]) && AtHalfThickness(line, r[3])
  {
    var r, h := RectangleFromLine(line, atan2), HalfThickness(line);
    OffsetEndpointAtHalfThickness(line, r[0], 0.0, Point(0.0, -h));
    OffsetEndpointAtHalfThickness(line, r[1], 1.0, Point(0.0, -h));
    OffsetEndpointAtHalfThickness(line, r[2], 1.0, Point(0.0, h));
    OffsetEndpointAtHalfThickness(line, r[3], 0.0, Point(0.0, h));
  }

  lemma OffsetVerticesAtHalfThickness(line: Line, a: Angle)
    requires IsAtan2(a, Direction(line).y, Direction(line).x)
    ensures var r := OffsetRectangle(line, a);
      AtHalfThickness(line, r[0]) && AtHalfThickness(line, r[1]) &&
      AtHalfThickness(line, r[2]) && AtHalfThickness(line, r[3])
  {
    var r, d := OffsetRectangle(line, a), Direction(line);
    OffsetIsPerpendicular(line, a);
    var off := Vector(line.start, r[0]);
    var neg := Point(-off.x, -off.y);
    assert Dot(neg, d) == -Dot(off, d);
    assert Norm2(neg) == Norm2(off);
    OffsetEndpointAtHalfThickness(line, r[0], 0.0, off);
    OffsetEndpointAtHalfThickness(line, r[1], 0.0, neg);
    OffsetEndpointAtHalfThickness(line, r[2], 1.0, neg);
    OffsetEndpointAtHalfThickness(line, r[3], 1.0, off);
  }

  /**
   * Every vertex, in every branch, lies at distance |t|/2 from the segment's
   * supporting line and projects onto the segment at the start or at the end
   * point (flat caps, not extended). The diagonal branch needs the hypotheses
   * on atan2; the axis-aligned ones hold unconditionally. For a zero-length
   * segment the direction is (0, 0) and AtHalfThickness holds of every point,
   * so this lemma says nothing there; ZeroLengthSegment covers that case.
   */
  lemma VerticesAtHalfThickness(line: Line, atan2: (real, real) -> Angle)
    requires !IsVertical(line) && !IsHorizontal(line) ==>
      IsAtan2(atan2(Direction(line).y, Direction(line).x), Direction(line).y, Direction(line).x)
    ensures var r := RectangleFromLine(line, atan2);
      forall i :: 0 <= i < 4 ==> AtHalfThickness(line, r[i])
  {
    if IsVertical(line) {
      VerticalVerticesAtHalfThickness(line, atan2);
    } else if IsHorizontal(line) {
      HorizontalVerticesAtHalfThickness(line, atan2);
    } else {
      var d := Direction(line);
      OffsetVerticesAtHalfThickness(line, atan2(d.y, d.x));
    }
  }
}
