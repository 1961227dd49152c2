/**
 * The helpers of `CADController` (src/cad_controller.py) that do not depend
 * on the CAD application: line-weight validation, lifting 2-D points to 3-D
 * and flattening them for `AddPolyline`, the rectangle outline, and the
 * `is_running` guard every drawing method starts with.  The application and
 * its document are opaque handles; what a drawing call adds to model space
 * is recorded in `drawn`.
 */
module Cad {
  import opened Wrappers
  import opened Geometry

  /** `valid_lineweights`, in hundredths of a millimetre. */
  const ValidLineweights: seq<int> :=
    [0, 5, 9, 13, 15, 18, 20, 25, 30, 35, 40, 50, 53, 60, 70, 80, 90, 100, 106, 120, 140, 158, 200, 211]

  /**
   * `validate_lineweight`: no weight stays none, a listed weight is kept,
   * any other becomes 0.
   */
  function ValidateLineweight(lineweight: Option<int>): (r: Option<int>)
    ensures r.None? <==> lineweight.None?
    ensures r.Some? ==> r.value in ValidLineweights
    ensures r == lineweight <==> lineweight.None? || lineweight.value in ValidLineweights
    ensures r != lineweight ==> r == Some(0)
  {
    if lineweight.None? then None
    else if lineweight.value in ValidLineweights then lineweight
    else Some(0)
  }

  // ---------------------------------------------------------------------------
  // Points

  /** A point tuple as callers pass it: two or three coordinates. */
  datatype InputPoint = Pair(x: real, y: real) | Triple(x: real, y: real, z: real)

  /** A pair is lifted to z = 0; a triple is kept. */
  function Lift(p: InputPoint): (r: Point)
    ensures r.x == p.x && r.y == p.y
    ensures p.Pair? ==> r.z == 0.0
    ensures p.Triple? ==> r == Point(p.x, p.y, p.z)
  {
    if p.Pair? then Point(p.x, p.y, 0.0) else Point(p.x, p.y, p.z)
  }

  /** Every point lifted, in order. */
  function Lifted(points: seq<InputPoint>): (r: seq<Point>)
    ensures |r| == |points|
    ensures forall i :: 0 <= i < |points| ==> r[i] == Lift(points[i])
  {
    if points == [] then [] else [Lift(points[0])] + Lifted(points[1..])
  }

  /** The loop of `draw_polyline` that builds `processed_points`. */
  method ProcessPoints(points: seq<InputPoint>) returns (processed: seq<Point>)
    ensures processed == Lifted(points)
  {
    processed := [];
    for i := 0 to |points|
      invariant |processed| == i
      invariant forall k :: 0 <= k < i ==> processed[k] == Lift(points[k])
    {
      var point := points[i];
      if point.Pair? {
        processed := processed + [Point(point.x, point.y, 0.0)];
      } else {
        processed := processed + [Point(point.x, point.y, point.z)];
      }
    }
  }

  /** `[coord for point in processed_points for coord in point]`: x, y, z of each point in turn. */
  function Flatten(points: seq<Point>): (r: seq<real>)
    ensures |r| == 3 * |points|
    ensures forall i :: 0 <= i < |points| ==>
              r[3 * i] == points[i].x && r[3 * i + 1] == points[i].y && r[3 * i + 2] == points[i].z
  {
    if points == [] then []
    else
      var rest := Flatten(points[1..]);
      assert forall i :: 1 <= i < |points| ==> points[i] == points[1..][i - 1];
      [points[0].x, points[0].y, points[0].z] + rest
  }

  /** Groups a flat coordinate array back into points, three numbers each. */
  function Unflatten(coordinates: seq<real>): seq<Point>
    requires |coordinates| % 3 == 0
  {
    if coordinates == [] then []
    else [Point(coordinates[0], coordinates[1], coordinates[2])] + Unflatten(coordinates[3..])
  }

  // ---------------------------------------------------------------------------
  // Rectangles

  /**
   * The outline `draw_rectangle` hands to `draw_polyline`: the four corners
   * spanned by the two corners, then the first again, all at the height of
   * the first corner.
   */
  function RectangleVertices(corner1: InputPoint, corner2: InputPoint): (vs: seq<InputPoint>)
    ensures |vs| == 5 && vs[0] == vs[4]
    ensures vs[0] == Triple(corner1.x, corner1.y, Lift(corner1).z)
    ensures vs[1] == Triple(corner2.x, corner1.y, Lift(corner1).z)
    ensures vs[2] == Triple(corner2.x, corner2.y, Lift(corner1).z)
    ensures vs[3] == Triple(corner1.x, corner2.y, Lift(corner1).z)
    ensures forall i :: 0 <= i < 5 ==>
              && vs[i].Triple? && vs[i].z == Lift(corner1).z
              && (vs[i].x == corner1.x || vs[i].x == corner2.x)
              && (vs[i].y == corner1.y || vs[i].y == corner2.y)
  {
    var a := Lift(corner1);
    var b := Lift(corner2);
    [Triple(a.x, a.y, a.z), Triple(b.x, a.y, a.z), Triple(b.x, b.y, a.z), Triple(a.x, b.y, a.z), Triple(a.x, a.y, a.z)]
  }

  // ---------------------------------------------------------------------------
  // The controller

  /** An object of the CAD application's COM interface. */
  datatype ComObject = ComObject(id: nat)

  /**
   * An entity added to model space.  A hatch names its boundary by its
   * position in `drawn`; layers and colours are left out.
   */
  datatype Entity =
    | LineEntity(startPoint: Point, endPoint: Point, lineweight: Option<int>)
    | PolylineEntity(coordinates: seq<real>, closed: bool, lineweight: Option<int>)
    | HatchEntity(patternName: string, scale: real, boundary: nat)

  /** `draw_polyline`'s entity: Closed is set only for a closed request with more than two points. */
  function PolylineOf(points: seq<InputPoint>, closed: bool, lineweight: Option<int>): Entity {
    PolylineEntity(Flatten(Lifted(points)), closed && |points| > 2, ValidateLineweight(lineweight))
  }

  /** A line or polyline drawn with a weight `validate_lineweight` lets through, and a polyline of whole points. */
  predicate WellFormedEntity(e: Entity) {
    && (!e.HatchEntity? ==> ValidateLineweight(e.lineweight) == e.lineweight)
    && (e.PolylineEntity? ==> |e.coordinates| % 3 == 0)
  }

  /**
   * What every drawing keeps true: each entity is well formed, and a hatch
   * is bound to an earlier closed polyline.
   */
  predicate WellFormed(drawn: seq<Entity>) {
    forall i :: 0 <= i < |drawn| ==>
      && (!drawn[i].HatchEntity? ==> WellFormedEntity(drawn[i]))
      && (drawn[i].HatchEntity? ==>
            drawn[i].boundary < i && drawn[drawn[i].boundary].PolylineEntity? && drawn[drawn[i].boundary].closed)
  }

  /** Appending a well-formed line or polyline keeps the drawings well formed. */
  lemma AppendEntity(drawn: seq<Entity>, e: Entity)
    requires WellFormed(drawn) && !e.HatchEntity? && WellFormedEntity(e)
    ensures WellFormed(drawn + [e])
  {
  }

  /** Appending a hatch bound to a closed polyline already drawn keeps the drawings well formed. */
  lemma AppendHatch(drawn: seq<Entity>, e: Entity)
    requires WellFormed(drawn) && e.HatchEntity? && e.boundary < |drawn|
    requires drawn[e.boundary].PolylineEntity? && drawn[e.boundary].closed
    ensures WellFormed(drawn + [e])
  {
  }

  class CadController {
    var app: Option<ComObject>
    var doc: Option<ComObject>
    /** The entities this controller added to model space, oldest first. */
    var drawn: seq<Entity>

    /** The drawings so far are well formed, and a document is only held with its application. */
    predicate Valid()
      reads this
    {
      WellFormed(drawn) && (doc.Some? ==> app.Some?)
    }

    constructor ()
      ensures app.None? && doc.None? && drawn == []
      ensures Valid() && !IsRunning()
    {
      app := None;
      doc := None;
      drawn := [];
    }

    /** `is_running`. */
    predicate IsRunning()
      reads this
    {
      app.Some? && doc.Some?
    }

    /**
     * `start_cad` with the COM lookups as parameters: `application` is the
     * running or newly launched instance (none when both fail), `document`
     * its active or new document (none when it cannot be had), and `named`
     * whether reading the document's name succeeds.  The old handles are
     * cleared first.  A document whose name cannot be read fails the start
     * but stays in place, so the controller then reports itself running.
     */
    method Start(application: Option<ComObject>, document: Option<ComObject>, named: bool) returns (ok: bool)
      requires Valid()
      modifies this`app, this`doc
      ensures Valid()
      ensures app == application && doc == (if application.Some? then document else None)
      ensures ok <==> application.Some? && document.Some? && named
      ensures ok ==> IsRunning()
      ensures IsRunning() && !ok <==> application.Some? && document.Some? && !named
    {
      if app.Some? {
        app := None;
        doc := None;
      }
      if application.None? {
        return false;
      }
      app := application;
      doc := document;
      if doc.None? {
        return false;
      }
      if !named {
        return false;
      }
      return true;
    }

    /** `draw_line`: both ends lifted, the weight validated. */
    method DrawLine(startPoint: InputPoint, endPoint: InputPoint, lineweight: Option<int>) returns (handle: Option<nat>)
      requires Valid()
      modifies this`drawn
      ensures Valid()
      ensures !IsRunning() ==> handle.None? && drawn == old(drawn)
      ensures IsRunning() ==>
                && handle == Some(|old(drawn)|)
                && drawn == old(drawn) + [LineEntity(Lift(startPoint), Lift(endPoint), ValidateLineweight(lineweight))]
    {
      if !IsRunning() {
        return None;
      }
      var line := LineEntity(Lift(startPoint), Lift(endPoint), ValidateLineweight(lineweight));
      AppendEntity(drawn, line);
      handle := Some(|drawn|);
      drawn := drawn + [line];
    }

    /** `draw_polyline`: the points lifted and flattened, Closed only with more than two points. */
    method DrawPolyline(points: seq<InputPoint>, closed: bool, lineweight: Option<int>) returns (handle: Option<nat>)
      requires Valid()
      modifies this`drawn
      ensures Valid()
      ensures !IsRunning() ==> handle.None? && drawn == old(drawn)
      ensures IsRunning() ==>
                && handle == Some(|old(drawn)|)
                && drawn == old(drawn) + [PolylineOf(points, closed, lineweight)]
    {
      if !IsRunning() {
        return None;
      }
      var processed := ProcessPoints(points);
      var polyline := PolylineEntity(Flatten(processed), closed && |processed| > 2, ValidateLineweight(lineweight));
      AppendEntity(drawn, polyline);
      handle := Some(|drawn|);
      drawn := drawn + [polyline];
    }

    /** `draw_rectangle`: a closed polyline through the outline's five vertices. */
    method DrawRectangle(corner1: InputPoint, corner2: InputPoint, lineweight: Option<int>) returns (handle: Option<nat>)
      requires Valid()
      modifies this`drawn
      ensures Valid()
      ensures !IsRunning() ==> handle.None? && drawn == old(drawn)
      ensures IsRunning() ==>
                && handle == Some(|old(drawn)|)
                && drawn == old(drawn) + [PolylineOf(RectangleVertices(corner1, corner2), true, lineweight)]
                && drawn[|old(drawn)|].closed
    {
      if !IsRunning() {
        return None;
      }
      handle := DrawPolyline(RectangleVertices(corner1, corner2), true, lineweight);
    }

    /**
     * `draw_hatch`: fewer than three points draw nothing; otherwise a closed
     * boundary polyline is drawn and the hatch bound to it.
     */
    method DrawHatch(points: seq<InputPoint>, patternName: string, scale: real) returns (handle: Option<nat>)
      requires Valid()
      modifies this`drawn
      ensures Valid()
      ensures !IsRunning() || |points| < 3 ==> handle.None? && drawn == old(drawn)
      ensures IsRunning() && |points| >= 3 ==>
                && handle == Some(|old(drawn)| + 1)
                && drawn == old(drawn) + [PolylineOf(points, true, None), HatchEntity(patternName, scale, |old(drawn)|)]
                && drawn[|old(drawn)|].closed
    {
      if !IsRunning() {
        return None;
      }
      if |points| < 3 {
        return None;
      }
      var boundary := DrawPolyline(points, true, None);
      var hatch := HatchEntity(patternName, scale, boundary.value);
      AppendHatch(drawn, hatch);
      handle := Some(|drawn|);
      drawn := drawn + [hatch];
    }
  }
}
