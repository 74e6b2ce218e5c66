// find_enclosed_regions of polygon.py: build one rectangle per line, merge them
// with a polygon union, and report every interior ring (hole) of the merged
// shape as a record {exterior: ring, interior: []}.

module EnclosedRegions {
  import opened Plane
  import opened ThickLine

  /** One polygon of the union's result: its outer boundary and its holes. */
  datatype PolygonWithHoles = PolygonWithHoles(exterior: Ring, interiors: seq<Ring>)

  /**
   * The result of the union, by its geometry type: a single polygon, several
   * polygons, or anything else (an empty or mixed geometry collection).
   */
  datatype Merged =
    | Polygon(polygon: PolygonWithHoles)
    | MultiPolygon(polygons: seq<PolygonWithHoles>)
    | OtherGeometry

  /** One output record: the ring that bounds an enclosed void, and the holes nested in it. */
  datatype Hole = Hole(exterior: Ring, interior: seq<Ring>)

  // ---------------------------------------------------------------------------
  // Specification

  /** Every interior ring of the merged shape, in polygon order, then ring order. */
  function InteriorRings(merged: Merged): seq<Ring> {
    match merged
    case Polygon(p) => p.interiors
    case MultiPolygon(ps) => Interiors(ps)
    case OtherGeometry => []
  }

  /** The interior rings of several polygons, concatenated front to back. */
  function Interiors(ps: seq<PolygonWithHoles>): seq<Ring> {
    if ps == [] then [] else ps[0].interiors + Interiors(ps[1..])
  }

  /** One record per ring, built the way the inner loop appends them: last ring last. */
  function HolesOf(rings: seq<Ring>): (holes: seq<Hole>)
    ensures |holes| == |rings|
    ensures forall i :: 0 <= i < |rings| ==> holes[i] == Hole(rings[i], [])
  {
    if rings == [] then []
    else HolesOf(rings[..|rings| - 1]) + [Hole(rings[|rings| - 1], [])]
  }

  /** The records of several polygons, built the way the outer loop appends them: last polygon last. */
  function HolesOfPolygons(ps: seq<PolygonWithHoles>): seq<Hole> {
    if ps == [] then []
    else HolesOfPolygons(ps[..|ps| - 1]) + HolesOf(ps[|ps| - 1].interiors)
  }

  /** What the extraction loops of find_enclosed_regions produce for a merged shape. */
  function Holes(merged: Merged): seq<Hole> {
    match merged
    case Polygon(p) => HolesOf(p.interiors)
    case MultiPolygon(ps) => HolesOfPolygons(ps)
    case OtherGeometry => []
  }

  // ---------------------------------------------------------------------------
  // The program

  /** The hole-extraction loops of find_enclosed_regions, over an already merged shape. */
  method ExtractHoles(merged: Merged) returns (holes: seq<Hole>)
    ensures holes == Holes(merged)
    ensures |holes| == |InteriorRings(merged)|
    ensures forall i :: 0 <= i < |holes| ==> holes[i] == Hole(InteriorRings(merged)[i], [])
  {
    holes := [];
    match merged {
      case Polygon(p) =>
        for k := 0 to |p.interiors|
          invariant holes == HolesOf(p.interiors[..k])
        {
          assert p.interiors[..k + 1][..k] == p.interiors[..k];
          holes := holes + [Hole(p.interiors[k], [])];
        }
        assert p.interiors[..|p.interiors|] == p.interiors;
      case MultiPolygon(ps) =>
        for j := 0 to |ps|
          invariant holes == HolesOfPolygons(ps[..j])
        {
          var polygon := ps[j];
          ghost var before := holes;
          for k := 0 to |polygon.interiors|
            invariant holes == before + HolesOf(polygon.interiors[..k])
          {
            assert polygon.interiors[..k + 1][..k] == polygon.interiors[..k];
            holes := holes + [Hole(polygon.interiors[k], [])];
          }
          assert polygon.interiors[..|polygon.interiors|] == polygon.interiors;
          assert ps[..j + 1][..j] == ps[..j];
        }
        assert ps[..|ps|] == ps;
      case OtherGeometry =>
    }
    HolesAreInteriorRings(merged);
  }

  /**
   * find_enclosed_regions: one rectangle per line (in order), then the union,
   * then the holes. `atan2` and `unaryUnion` stand for math.atan2 with sin and
   * cos, and for the geometry library's union, which are not modelled.
   */
  method FindEnclosedRegions(lines: seq<Line>, atan2: (real, real) -> Angle,
                             unaryUnion: seq<Ring> -> Merged)
    returns (holes: seq<Hole>)
    ensures var merged := unaryUnion(Rectangles(lines, atan2));
      holes == Holes(merged) &&
      |holes| == |InteriorRings(merged)| &&
      forall i :: 0 <= i < |holes| ==> holes[i] == Hole(InteriorRings(merged)[i], [])
  {
    var rectangles := Rectangles(lines, atan2);
    var merged := unaryUnion(rectangles);
    holes := ExtractHoles(merged);
  }

  // ---------------------------------------------------------------------------
  // Properties of the specification

  lemma HolesOfAppend(a: seq<Ring>, b: seq<Ring>)
    ensures HolesOf(a + b) == HolesOf(a) + HolesOf(b)
  {
  }

  /** Appending a polygon appends its interior rings. */
  lemma {:induction false} InteriorsAppend(ps: seq<PolygonWithHoles>, p: PolygonWithHoles)
    ensures Interiors(ps + [p]) == Interiors(ps) + p.interiors
  {
    if ps == [] {
      assert [p][1..] == [];
    } else {
      assert (ps + [p])[1..] == ps[1..] + [p];
      InteriorsAppend(ps[1..], p);
    }
  }

  /**
   * The records built polygon by polygon are the records of all interior rings
   * concatenated in polygon order: nothing is skipped, repeated or reordered.
   */
  lemma {:induction false} HolesOfPolygonsFlatten(ps: seq<PolygonWithHoles>)
    ensures HolesOfPolygons(ps) == HolesOf(Interiors(ps))
  {
    if ps != [] {
      var init, last := ps[..|ps| - 1], ps[|ps| - 1];
      assert ps == init + [last];
      HolesOfPolygonsFlatten(init);
      InteriorsAppend(init, last);
      HolesOfAppend(Interiors(init), last.interiors);
    }
  }

  /**
   * The extraction yields exactly one record per interior ring of the merged
   * shape, in polygon order and then ring order, each with an empty interior;
   * in particular a shape that is neither a Polygon nor a MultiPolygon yields
   * no records.
   */
  lemma HolesAreInteriorRings(merged: Merged)
    ensures merged.OtherGeometry? ==> Holes(merged) == []
    ensures |Holes(merged)| == |InteriorRings(merged)|
    ensures forall i :: 0 <= i < |Holes(merged)| ==>
      Holes(merged)[i] == Hole(InteriorRings(merged)[i], [])
  {
    if merged.MultiPolygon? {
      HolesOfPolygonsFlatten(merged.polygons);
    }
  }

  /** Every record's own interior is empty: holes are never subdivided. */
  lemma HolesHaveNoInterior(merged: Merged)
    ensures forall hole :: hole in Holes(merged) ==> hole.interior == []
  {
    HolesAreInteriorRings(merged);
  }

  /** The number of interior rings of several polygons is the sum of their counts. */
  function RingCount(ps: seq<PolygonWithHoles>): nat {
    if ps == [] then 0 else |ps[0].interiors| + RingCount(ps[1..])
  }

  /**
   * The k-th ring of polygon j sits at position (rings of polygons 0..j-1) + k
   * of the concatenation: polygon order first, ring order within a polygon.
   */
  lemma {:induction false} InteriorsAt(ps: seq<PolygonWithHoles>, j: nat, k: nat)
    requires j < |ps| && k < |ps[j].interiors|
    ensures |Interiors(ps)| == RingCount(ps)
    ensures RingCount(ps[..j]) + k < |Interiors(ps)|
    ensures Interiors(ps)[RingCount(ps[..j]) + k] == ps[j].interiors[k]
  {
    if j == 0 {
      assert ps[..0] == [];
      InteriorsLength(ps[1..]);
    } else {
      assert ps[..j][1..] == ps[1..][..j - 1];
      InteriorsAt(ps[1..], j - 1, k);
    }
  }

  lemma {:induction false} InteriorsLength(ps: seq<PolygonWithHoles>)
    ensures |Interiors(ps)| == RingCount(ps)
  {
    if ps != [] {
      InteriorsLength(ps[1..]);
    }
  }

  /** For any MultiPolygon, the number of records is the sum of its polygons' ring counts. */
  lemma HolesTotal(ps: seq<PolygonWithHoles>)
    ensures |Holes(MultiPolygon(ps))| == RingCount(ps)
  {
    HolesAreInteriorRings(MultiPolygon(ps));
    InteriorsLength(ps);
  }

  /**
   * For a MultiPolygon, the record for ring k of polygon j is at position
   * (rings of the earlier polygons) + k, and the total is the sum of the ring
   * counts.
   */
  lemma HolesInPolygonOrder(ps: seq<PolygonWithHoles>, j: nat, k: nat)
    requires j < |ps| && k < |ps[j].interiors|
    ensures |Holes(MultiPolygon(ps))| == RingCount(ps)
    ensures RingCount(ps[..j]) + k < |Holes(MultiPolygon(ps))|
    ensures Holes(MultiPolygon(ps))[RingCount(ps[..j]) + k] == Hole(ps[j].interiors[k], [])
  {
    HolesAreInteriorRings(MultiPolygon(ps));
    InteriorsAt(ps, j, k);
  }

  /** A single polygon and a MultiPolygon holding only that polygon give the same records. */
  lemma SinglePolygonAsMulti(p: PolygonWithHoles)
    ensures Holes(Polygon(p)) == Holes(MultiPolygon([p]))
  {
    assert [p][..0] == [];
    assert HolesOfPolygons([p]) == HolesOfPolygons([]) + HolesOf(p.interiors);
  }
}
