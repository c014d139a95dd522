/**
 * The corner-box rule: the bounding box of a rectangle's four corners after
 * a projective transform, with the line at infinity handled by giving up to
 * the full-infinite rectangle.
 */
module CornerBox {
  import opened Geometry
  import opened Rects

  /** Four homogeneous points: the transformed corners of a rectangle. */
  type Quad = s: seq<Point3D> | |s| == 4
    witness [Point3D(0.0, 0.0, 1.0), Point3D(0.0, 0.0, 1.0), Point3D(0.0, 0.0, 1.0), Point3D(0.0, 0.0, 1.0)]

  /** The corners of `r` lifted to (x, y, 1) in the order (x1,y1), (x1,y2), (x2,y2), (x2,y1), then transformed. */
  function Corners(r: Rect, m: Matrix3x3): Quad {
    [Apply(m, Point3D(r.x1, r.y1, 1.0)),
     Apply(m, Point3D(r.x1, r.y2, 1.0)),
     Apply(m, Point3D(r.x2, r.y2, 1.0)),
     Apply(m, Point3D(r.x2, r.y1, 1.0))]
  }

  predicate AllPositive(p: Quad) {
    forall k :: 0 <= k < 4 ==> p[k].z > 0.0
  }

  predicate AllNegative(p: Quad) {
    forall k :: 0 <= k < 4 ==> p[k].z < 0.0
  }

  /** Every z is nonzero and all share one sign: the line at infinity does not cross the quad. */
  predicate SameSide(p: Quad) {
    AllPositive(p) || AllNegative(p)
  }

  /** Perspective division. */
  function Project(p: Point3D): Point2
    requires p.z != 0.0
  {
    Point2(p.x / p.z, p.y / p.z)
  }

  /** The four perspective-divided corners. */
  function Projected(p: Quad): (q: seq<Point2>)
    requires SameSide(p)
    ensures |q| == 4
    ensures forall k :: 0 <= k < 4 ==> p[k].z != 0.0 && q[k] == Project(p[k])
  {
    [Project(p[0]), Project(p[1]), Project(p[2]), Project(p[3])]
  }

  /** The bounding box of four points. */
  function Bounds4(q: seq<Point2>): (r: Rect)
    requires |q| == 4
    ensures WellFormed(r)
    ensures forall k :: 0 <= k < 4 ==> ContainsPoint(r, q[k])
    ensures exists k :: 0 <= k < 4 && r.x1 == q[k].x
    ensures exists k :: 0 <= k < 4 && r.x2 == q[k].x
    ensures exists k :: 0 <= k < 4 && r.y1 == q[k].y
    ensures exists k :: 0 <= k < 4 && r.y2 == q[k].y
  {
    Rect(Min(Min(Min(q[0].x, q[1].x), q[2].x), q[3].x),
         Min(Min(Min(q[0].y, q[1].y), q[2].y), q[3].y),
         Max(Max(Max(q[0].x, q[1].x), q[2].x), q[3].x),
         Max(Max(Max(q[0].y, q[1].y), q[2].y), q[3].y))
  }

  /**
   * The corner box of four transformed corners: full-infinite when the z
   * signs are mixed or some z is 0, otherwise the tightest box around the
   * perspective-divided corners.
   */
  function BoxOf(p: Quad): (r: Rect)
    ensures !SameSide(p) ==> r == Infinite
    ensures SameSide(p) ==> WellFormed(r)
    ensures SameSide(p) ==> forall k :: 0 <= k < 4 ==> ContainsPoint(r, Project(p[k]))
    ensures SameSide(p) ==> exists k :: 0 <= k < 4 && r.x1 == Project(p[k]).x
    ensures SameSide(p) ==> exists k :: 0 <= k < 4 && r.x2 == Project(p[k]).x
    ensures SameSide(p) ==> exists k :: 0 <= k < 4 && r.y1 == Project(p[k]).y
    ensures SameSide(p) ==> exists k :: 0 <= k < 4 && r.y2 == Project(p[k]).y
  {
    if SameSide(p) then Bounds4(Projected(p)) else Infinite
  }

  /** The corner box is always well formed. */
  lemma BoxOfWellFormed(p: Quad)
    ensures WellFormed(BoxOf(p))
  {
  }

  /**
   * The corner-box computation as the source writes it: one pass for the z
   * signs, then a single min/max pass whose x2 (y2) update sits in the else
   * branch of the x1 (y1) update.
   */
  method RegionFromPoints(p: Quad) returns (rod: Rect)
    ensures rod == BoxOf(p)
  {
    var allPositive := true;
    var allNegative := true;
    var i := 0;
    while i < 4
      invariant 0 <= i <= 4
      invariant allNegative <==> forall k :: 0 <= k < i ==> p[k].z < 0.0
      invariant allPositive <==> forall k :: 0 <= k < i ==> p[k].z > 0.0
    {
      allNegative := allNegative && p[i].z < 0.0;
      allPositive := allPositive && p[i].z > 0.0;
      i := i + 1;
    }
    if !allPositive && !allNegative {
      rod := Infinite;
    } else {
      var q := Projected(p);
      var x1, x2, y1, y2 := q[0].x, q[0].x, q[0].y, q[0].y;
      ghost var ix1, ix2, iy1, iy2 := 0, 0, 0, 0;
      var j := 1;
      while j < 4
        invariant 1 <= j <= 4
        invariant x1 <= x2 && y1 <= y2
        invariant forall k :: 0 <= k < j ==> x1 <= q[k].x <= x2 && y1 <= q[k].y <= y2
        invariant 0 <= ix1 < j && x1 == q[ix1].x && 0 <= ix2 < j && x2 == q[ix2].x
        invariant 0 <= iy1 < j && y1 == q[iy1].y && 0 <= iy2 < j && y2 == q[iy2].y
      {
        if q[j].x < x1 {
          x1, ix1 := q[j].x, j;
        } else if q[j].x > x2 {
          x2, ix2 := q[j].x, j;
        }
        if q[j].y < y1 {
          y1, iy1 := q[j].y, j;
        } else if q[j].y > y2 {
          y2, iy2 := q[j].y, j;
        }
        j := j + 1;
      }
      rod := Rect(x1, y1, x2, y2);
    }
  }

  /** A translation keeps every z at 1, so the corner box is the rectangle moved by the offset. */
  lemma TranslatedBox(r: Rect, dx: real, dy: real)
    requires WellFormed(r)
    ensures BoxOf(Corners(r, Translation(dx, dy))) == Shift(r, dx, dy)
  {
    var p := Corners(r, Translation(dx, dy));
    assert p == [Point3D(r.x1 + dx, r.y1 + dy, 1.0), Point3D(r.x1 + dx, r.y2 + dy, 1.0),
                 Point3D(r.x2 + dx, r.y2 + dy, 1.0), Point3D(r.x2 + dx, r.y1 + dy, 1.0)];
    assert AllPositive(p);
    var q := [Point2(r.x1 + dx, r.y1 + dy), Point2(r.x1 + dx, r.y2 + dy),
              Point2(r.x2 + dx, r.y2 + dy), Point2(r.x2 + dx, r.y1 + dy)];
    forall k | 0 <= k < 4
      ensures Project(p[k]) == q[k]
    {
      assert p[k].z == 1.0;
      assert p[k].x / 1.0 == p[k].x && p[k].y / 1.0 == p[k].y;
    }
    assert Projected(p) == q;
    assert Bounds4(q) == Shift(r, dx, dy);
  }
}
