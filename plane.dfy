// Points, vectors and rings in the Euclidean plane, with exact real coordinates.
// These are the vocabulary in which the rectangle construction and the hole
// extraction are specified; nothing here is a step of the program itself.

module Plane {

  /** A point, or a vector when it is the difference of two points. */
  datatype Point = Point(x: real, y: real)

  /** A closed ring of vertices; the edge from the last vertex back to the first is implied. */
  type Ring = seq<Point>

  function Abs(r: real): real {
    if r < 0.0 then -r else r
  }

  function Min(a: real, b: real): real {
    if a <= b then a else b
  }

  function Max(a: real, b: real): real {
    if a <= b then b else a
  }

  /** The vector that leads from p to q. */
  function Vector(p: Point, q: Point): Point {
    Point(q.x - p.x, q.y - p.y)
  }

  function Dot(u: Point, v: Point): real {
    u.x * v.x + u.y * v.y
  }

  /** The z-component of the cross product: positive when v turns left from u. */
  function Cross(u: Point, v: Point): real {
    u.x * v.y - u.y * v.x
  }

  /** The squared Euclidean length. */
  function Norm2(u: Point): real {
    Dot(u, u)
  }

  function Midpoint(p: Point, q: Point): Point {
    Point((p.x + q.x) / 2.0, (p.y + q.y) / 2.0)
  }

  // Axis-aligned extents of a ring

  function MinX(r: Ring): real
    requires |r| > 0
  {
    if |r| == 1 then r[0].x else Min(r[0].x, MinX(r[1..]))
  }

  function MaxX(r: Ring): real
    requires |r| > 0
  {
    if |r| == 1 then r[0].x else Max(r[0].x, MaxX(r[1..]))
  }

  function MinY(r: Ring): real
    requires |r| > 0
  {
    if |r| == 1 then r[0].y else Min(r[0].y, MinY(r[1..]))
  }

  function MaxY(r: Ring): real
    requires |r| > 0
  {
    if |r| == 1 then r[0].y else Max(r[0].y, MaxY(r[1..]))
  }

  /** The x-extent of the ring's bounding box. */
  function Width(r: Ring): real
    requires |r| > 0
  {
    MaxX(r) - MinX(r)
  }

  /** The y-extent of the ring's bounding box. */
  function Height(r: Ring): real
    requires |r| > 0
  {
    MaxY(r) - MinY(r)
  }

  // Signed area (shoelace formula): positive for a counter-clockwise ring

  function EdgeCrossSum(r: Ring, i: nat): real
    requires i <= |r|
    decreases |r| - i
  {
    if i == |r| then 0.0 else Cross(r[i], r[(i + 1) % |r|]) + EdgeCrossSum(r, i + 1)
  }

  /** Twice the signed area enclosed by the ring. */
  function TwiceSignedArea(r: Ring): real {
    EdgeCrossSum(r, 0)
  }

  /** The extents of a four-vertex ring, written out. */
  lemma QuadExtents(a: Point, b: Point, c: Point, d: Point)
    ensures MinX([a, b, c, d]) == Min(a.x, Min(b.x, Min(c.x, d.x)))
    ensures MaxX([a, b, c, d]) == Max(a.x, Max(b.x, Max(c.x, d.x)))
    ensures MinY([a, b, c, d]) == Min(a.y, Min(b.y, Min(c.y, d.y)))
    ensures MaxY([a, b, c, d]) == Max(a.y, Max(b.y, Max(c.y, d.y)))
  {
    var q := [a, b, c, d];
    assert q[1..] == [b, c, d];
    assert [b, c, d][1..] == [c, d];
    assert [c, d][1..] == [d];
    assert MinX([c, d]) == Min(c.x, d.x);
    assert MaxX([c, d]) == Max(c.x, d.x);
    assert MinY([c, d]) == Min(c.y, d.y);
    assert MaxY([c, d]) == Max(c.y, d.y);
    assert MinX([b, c, d]) == Min(b.x, MinX([c, d]));
    assert MaxX([b, c, d]) == Max(b.x, MaxX([c, d]));
    assert MinY([b, c, d]) == Min(b.y, MinY([c, d]));
    assert MaxY([b, c, d]) == Max(b.y, MaxY([c, d]));
  }

  /** The shoelace sum of a four-vertex ring, written out. */
  lemma QuadArea(a: Point, b: Point, c: Point, d: Point)
    ensures TwiceSignedArea([a, b, c, d]) == Cross(a, b) + Cross(b, c) + Cross(c, d) + Cross(d, a)
  {
    var q := [a, b, c, d];
    assert EdgeCrossSum(q, 4) == 0.0;
    assert EdgeCrossSum(q, 3) == Cross(d, a);
    assert EdgeCrossSum(q, 2) == Cross(c, d) + Cross(d, a);
    assert EdgeCrossSum(q, 1) == Cross(b, c) + Cross(c, d) + Cross(d, a);
  }

  /** Twice the signed area of a parallelogram is twice the cross product of two adjacent sides. */
  lemma ParallelogramArea(a: Point, b: Point, c: Point, d: Point)
    requires Vector(a, d) == Vector(b, c)
    ensures TwiceSignedArea([a, b, c, d]) == 2.0 * Cross(Vector(a, b), Vector(a, d))
  {
    QuadArea(a, b, c, d);
    var u, v := Vector(a, b), Vector(a, d);
    assert Cross(a, b) == Cross(a, u) by { assert b == Point(a.x + u.x, a.y + u.y); }
    assert Cross(b, c) == Cross(a, v) + Cross(u, v) by {
      assert b == Point(a.x + u.x, a.y + u.y);
      assert c == Point(b.x + v.x, b.y + v.y);
    }
    assert Cross(c, d) == -Cross(a, u) + Cross(u, v) by {
      assert d == Point(a.x + v.x, a.y + v.y);
      assert c == Point(d.x + u.x, d.y + u.y);
    }
    assert Cross(d, a) == -Cross(a, v) by { assert d == Point(a.x + v.x, a.y + v.y); }
  }

  // Two rings describe the same polygon boundary when one is a rotation of the
  // other or of its reversal (same start moved, or same cycle walked backwards).

  function Rotate(r: Ring, k: nat): Ring
    requires k <= |r|
  {
    r[k..] + r[..k]
  }

  function Reverse(r: Ring): Ring {
    seq(|r|, i requires 0 <= i < |r| => r[|r| - 1 - i])
  }

  ghost predicate SameRing(p: Ring, q: Ring) {
    exists k :: 0 <= k < |q| && (p == Rotate(q, k) || p == Rotate(Reverse(q), k))
  }
}
