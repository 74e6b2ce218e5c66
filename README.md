# Thick lines and enclosed regions

A verified model of `polygon.py` from the polygon-problem scripts. The file does two things:

- It turns each line segment `{start, end, thickness}` into a four-vertex "thick line" rectangle (`create_rectangle_from_line`). A three-way branch on exact coordinate equality picks the formula: vertical, then horizontal, then a general formula that moves each endpoint by ±(−dx, dy), where (dx, dy) = (h sin a, h cos a), `h` is half the thickness and `a = atan2(y2 - y1, x2 - x1)`.
- It merges the rectangles with the geometry library's union and reports every interior ring of the result (`find_enclosed_regions`). Each ring becomes a record `{exterior: ring, interior: []}`, in polygon order and then ring order.

Coordinates are exact `real`s. The project has three modules, one file each:

- `Plane` (`plane.dfy`): points, vectors, dot and cross products, bounding-box extents, the shoelace signed area, and the equivalence of rings up to rotation and reversal.
- `ThickLine` (`thick_line.dfy`): the rectangle construction and its geometry.
- `EnclosedRegions` (`enclosed_regions.dfy`): the union result as a datatype, the nested extraction loops, and their specification.

The trigonometric calls are a function parameter `atan2: (real, real) -> Angle`. `Angle` is a pair `(sin, cos)`. The lemmas about the diagonal branch assume only what atan2 guarantees for a non-zero vector `(x, y)`:

- `sin² + cos² = 1`
- `sin·x = cos·y`
- `sin·y + cos·x > 0`

The union is a function parameter too: `unaryUnion: seq<Ring> -> Merged`. `Merged` is `Polygon`, `MultiPolygon` or `OtherGeometry`.

Two facts about the construction that the model states explicitly:

- The code validates neither the segment nor the thickness. A zero-length segment takes the vertical branch (`ZeroLengthSegment`), and extents are stated with `|t|`, so they hold for any thickness.
- The horizontal branch is not just the vertical one with the axes swapped. Its caps are the edges 3→0 and 1→2, while in the other two branches they are 0→1 and 2→3. `BranchesAgreeWithOffsetRectangle` shows that all three branches still describe the same ring, up to rotation and direction.

## Model

| member | source | states |
|---|---|---|
| `ThickLine.RectangleFromLine` | polygon.py:7-35 | every segment, in every branch, yields exactly four vertices |
| `ThickLine.Rectangles` | polygon.py:40 | one rectangle per input line, same length, the i-th is the i-th line's rectangle, each of four vertices |
| `ThickLine.VerticalBranch` | polygon.py:12-18 | when x1 == x2 the vertices are (x1-h,y1),(x1+h,y1),(x1+h,y2),(x1-h,y2); x-extent is abs(t), y-extent is abs(y2-y1), twice the signed area is 2t(y2-y1) |
| `ThickLine.ZeroLengthSegment` | polygon.py:12-18 | a zero-length segment takes the vertical branch and collapses to a slit: width abs(t), height 0, area 0 |
| `ThickLine.HorizontalBranch` | polygon.py:19-25 | when x1 != x2 and y1 == y2 the vertices are (x1,y1-h),(x2,y1-h),(x2,y1+h),(x1,y1+h); y-extent abs(t), x-extent abs(x2-x1), twice the signed area 2t(x2-x1) |
| `ThickLine.DiagonalBranch` | polygon.py:26-35 | a segment neither vertical nor horizontal gets the general formula at atan2(y2-y1, x2-x1); whatever the angle, vertices 0,1 are centred on the start point and vertices 2,3 on the end point |
| `ThickLine.OffsetRectangle` | polygon.py:28-35 | the general formula yields four vertices |
| `ThickLine.OffsetIsPerpendicular` | polygon.py:27-32 | under the atan2 hypotheses the offset (-dx, dy) is perpendicular to the segment and has squared length h²; both caps are perpendicular to the segment with squared length t² |
| `ThickLine.OffsetSidesFollowSegment` | polygon.py:30-35 | both long sides (vertex 0→3, 1→2) equal the segment vector; the caps are centred on the endpoints |
| `ThickLine.OffsetArea` | polygon.py:27-35 | twice the signed area is 2·t·L with L = sin a·(y2-y1) + cos a·(x2-x1) > 0 and L² = (x2-x1)² + (y2-y1)²: area is thickness × length, counter-clockwise for t > 0 |
| `ThickLine.OffsetRectangleGeometry` | polygon.py:27-35 | all of the general formula's properties at once: perpendicular offset of length h, long sides equal to the segment, flat caps of length abs(t), area thickness × length |
| `ThickLine.DiagonalBranchGeometry` | polygon.py:26-35 | the diagonal branch itself, under the atan2 hypotheses: perpendicular offset of length h, long sides equal to the segment, cap perpendicular with length abs(t), (twice the signed area)² = 4t²·((x2-x1)² + (y2-y1)²) |
| `ThickLine.AxisAngle` | polygon.py:27-29 | on an axis-parallel direction the atan2 hypotheses force the angle: (0, y) gives sin = sign y, cos = 0; (x, 0) gives sin = 0, cos = sign x |
| `ThickLine.BranchesAgreeWithOffsetRectangle` | polygon.py:12-35 | for any segment of non-zero length, with exact trigonometry, the branch taken gives the same ring as the general formula, up to starting vertex and direction |
| `ThickLine.VerticalVerticesAtHalfThickness` | polygon.py:12-18 | in the vertical branch every vertex lies at distance abs(t)/2 from the supporting line and projects onto an endpoint |
| `ThickLine.HorizontalVerticesAtHalfThickness` | polygon.py:19-25 | in the horizontal branch every vertex lies at distance abs(t)/2 from the supporting line and projects onto an endpoint |
| `ThickLine.OffsetVerticesAtHalfThickness` | polygon.py:27-35 | under the atan2 hypotheses every vertex of the general formula lies at distance abs(t)/2 from the supporting line and projects onto an endpoint |
| `ThickLine.VerticesAtHalfThickness` | polygon.py:12-35 | every vertex of every branch lies at distance abs(t)/2 from the supporting line and projects onto the start or the end point (flat caps, not extended) |
| `EnclosedRegions.HolesOf` | polygon.py:48-52 | the inner loop's records: one per ring, the i-th is {exterior: ring i, interior: []} |
| `EnclosedRegions.ExtractHoles` | polygon.py:46-61 | the nested loops produce exactly the specification's records: one per interior ring of the merged shape, in order, each with an empty interior |
| `EnclosedRegions.FindEnclosedRegions` | polygon.py:37-61 | the whole function: the records for the interior rings of the union of the per-line rectangles, one per ring, in order, with empty interiors |
| `EnclosedRegions.HolesOfPolygonsFlatten` | polygon.py:53-59 | the records built polygon by polygon equal the records of all interior rings concatenated in polygon order |
| `EnclosedRegions.HolesAreInteriorRings` | polygon.py:46-61 | count of records equals count of interior rings; record i is interior ring i with an empty interior; a result that is neither Polygon nor MultiPolygon yields [] |
| `EnclosedRegions.HolesHaveNoInterior` | polygon.py:49-58 | every record's interior is empty |
| `EnclosedRegions.HolesTotal` | polygon.py:53-59 | for every MultiPolygon, including one with no interior rings, the number of records is the sum of its polygons' ring counts |
| `EnclosedRegions.HolesInPolygonOrder` | polygon.py:53-59 | for a MultiPolygon, ring k of polygon j is reported at position (rings of polygons before j) + k |
| `EnclosedRegions.SinglePolygonAsMulti` | polygon.py:47-59 | a Polygon and a MultiPolygon holding only it yield the same records |

## Left out

- `unary_union` (polygon.py:43) is the geometry library's polygon union. It is not modelled. It is a parameter, and its result is taken as given.
- `math.atan2`, `math.sin` and `math.cos` (polygon.py:27-29) are not computed. The model gets the angle from a parameter and states the diagonal branch's geometry under the three hypotheses that atan2 guarantees.
- Floating-point rounding is not modelled. Coordinates are exact reals, so the rounding differences between the axis-aligned and the general formula do not arise. The three-way branch is kept as written.
- `plot_polygons` (polygon.py:63-90) is rendering only and is not part of this model.
- The script at the end of the file (polygon.py:93-105) is not part of this model. It holds the sample input, the `print` call and the plot call.
- Rings are opaque point sequences. The repeated closing point that the library's `.coords` adds (polygon.py:50, 57) is not modelled.
- Line 54 iterates the MultiPolygon directly, which newer versions of the geometry library reject. The model iterates over the constituent polygons, as the code intends.
- The Python dictionaries `{'exterior': ..., 'interior': []}` are the datatype `Hole`. The input dictionaries `{start, end, thickness}` are the datatype `Line`.
