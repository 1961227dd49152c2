/**
 * Properties of the controller helpers: validating a weight twice changes
 * nothing, flattening loses nothing, and the rectangle outline is a closed
 * ring of axis-aligned edges that ignores the second corner's height.
 */
module CadFacts {
  import opened Wrappers
  import opened Geometry
  import opened Cad

  /** A validated weight is left alone by a second validation. */
  lemma ValidateIdempotent(lineweight: Option<int>)
    ensures ValidateLineweight(ValidateLineweight(lineweight)) == ValidateLineweight(lineweight)
  {
  }

  /** The flat array `AddPolyline` receives determines the points. */
  lemma {:induction false} UnflattenFlatten(points: seq<Point>)
    ensures Unflatten(Flatten(points)) == points
  {
    if points != [] {
      var r := Flatten(points);
      assert r[3..] == Flatten(points[1..]);
      UnflattenFlatten(points[1..]);
    }
  }

  /** Every array of whole points is the flattening of its grouping. */
  lemma {:induction false} FlattenUnflatten(coordinates: seq<real>)
    requires |coordinates| % 3 == 0
    ensures Flatten(Unflatten(coordinates)) == coordinates
  {
    if coordinates != [] {
      FlattenUnflatten(coordinates[3..]);
    }
  }

  /** Consecutive outline vertices share x or y: every edge is axis-aligned. */
  lemma RectangleEdgesAxisAligned(corner1: InputPoint, corner2: InputPoint)
    ensures var vs := RectangleVertices(corner1, corner2);
            forall i :: 0 <= i < 4 ==> vs[i].x == vs[i + 1].x || vs[i].y == vs[i + 1].y
  {
  }

  /** The outline depends on the second corner only through its x and y. */
  lemma RectangleIgnoresSecondHeight(corner1: InputPoint, corner2: InputPoint, z: real)
    ensures RectangleVertices(corner1, Triple(corner2.x, corner2.y, z)) == RectangleVertices(corner1, corner2)
  {
  }

  /** The rectangle's flattened outline has 15 coordinates and ends where it starts. */
  lemma RectangleOutlineCloses(corner1: InputPoint, corner2: InputPoint)
    ensures var r := Flatten(Lifted(RectangleVertices(corner1, corner2)));
            |r| == 15 && r[..3] == r[12..]
  {
    var ps := Lifted(RectangleVertices(corner1, corner2));
    var r := Flatten(ps);
    assert ps[0] == ps[4];
    assert r[..3] == [ps[0].x, ps[0].y, ps[0].z];
    assert r[12..] == [ps[4].x, ps[4].y, ps[4].z];
  }
}
