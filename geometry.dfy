/** The vector and box types shared by the classifier and the point-file
    reader: Unity's `Vector3` (and g3's `Vector3d`, which the model does not
    distinguish from it) over the reals, Unity's `Bounds` as a centre and a
    full size, and the component-wise min/max that both files accumulate. */
module Geometry {
  import opened Wrappers

  datatype Vec3 = Vec3(x: real, y: real, z: real)

  const Origin: Vec3 := Vec3(0.0, 0.0, 0.0)

  /** `Mathf.Min` and `Mathf.Max`. */
  function RealMin(a: real, b: real): real { if a < b then a else b }
  function RealMax(a: real, b: real): real { if a > b then a else b }

  /** `Vector3.Min` and `Vector3.Max`: component by component. */
  function Vec3Min(a: Vec3, b: Vec3): Vec3 {
    Vec3(RealMin(a.x, b.x), RealMin(a.y, b.y), RealMin(a.z, b.z))
  }

  function Vec3Max(a: Vec3, b: Vec3): Vec3 {
    Vec3(RealMax(a.x, b.x), RealMax(a.y, b.y), RealMax(a.z, b.z))
  }

  /** `a` is below or equal to `b` on every axis. */
  predicate Below(a: Vec3, b: Vec3) {
    a.x <= b.x && a.y <= b.y && a.z <= b.z
  }

  predicate Within(p: Vec3, lo: Vec3, hi: Vec3) {
    Below(lo, p) && Below(p, hi)
  }

  /** g3's `Triangle3d`: three world-space vertices. */
  datatype Triangle = Triangle(v0: Vec3, v1: Vec3, v2: Vec3)

  /** Unity's `Bounds`, built as `new Bounds(center, size)`. */
  datatype Bounds = Bounds(center: Vec3, size: Vec3) {

    function Min(): Vec3 {
      Vec3(center.x - size.x / 2.0, center.y - size.y / 2.0, center.z - size.z / 2.0)
    }

    function Max(): Vec3 {
      Vec3(center.x + size.x / 2.0, center.y + size.y / 2.0, center.z + size.z / 2.0)
    }

    predicate Contains(p: Vec3) {
      Within(p, Min(), Max())
    }

    /** Every point of `b` lies in this box. */
    predicate Encloses(b: Bounds) {
      Below(Min(), b.Min()) && Below(b.Max(), Max())
    }
  }

  /** The box whose centre is the midpoint `(lo + hi) / 2` and whose size is
      `hi - lo`: it spans exactly from `lo` to `hi`. */
  function FromMinMax(lo: Vec3, hi: Vec3): (b: Bounds)
    ensures b.Min() == lo && b.Max() == hi
  {
    Bounds(Vec3((lo.x + hi.x) / 2.0, (lo.y + hi.y) / 2.0, (lo.z + hi.z) / 2.0),
           Vec3(hi.x - lo.x, hi.y - lo.y, hi.z - lo.z))
  }

  /** Unity's `Bounds.Encapsulate(point)`: grow the box to take in `p`. */
  function EncapsulatePoint(b: Bounds, p: Vec3): (r: Bounds)
    ensures r.Contains(p) && r.Encloses(b)
  {
    FromMinMax(Vec3Min(b.Min(), p), Vec3Max(b.Max(), p))
  }

  /** Unity's `Bounds.Encapsulate(bounds)`: take in both corners of `other`. */
  function Encapsulate(b: Bounds, other: Bounds): (r: Bounds)
    ensures r.Encloses(b) && r.Contains(other.Min()) && r.Contains(other.Max())
  {
    EncapsulatePoint(EncapsulatePoint(b, other.Min()), other.Max())
  }

  /** The lower and upper corners that a scan over `points` reaches when it
      folds `Vec3Min` and `Vec3Max` over them in order. The scans in the source
      start from the infinite corners; here no point at all gives None. */
  function MinMax(points: seq<Vec3>): (r: Option<(Vec3, Vec3)>)
    ensures r.None? <==> |points| == 0
  {
    if |points| == 0 then None
    else
      var last := points[|points| - 1];
      match MinMax(points[..|points| - 1])
      case None => Some((last, last))
      case Some(c) => Some((Vec3Min(c.0, last), Vec3Max(c.1, last)))
  }

  /** Each of the six corner components is the component of some point. */
  ghost predicate Attained(points: seq<Vec3>, lo: Vec3, hi: Vec3) {
    && (exists k :: 0 <= k < |points| && points[k].x == lo.x)
    && (exists k :: 0 <= k < |points| && points[k].y == lo.y)
    && (exists k :: 0 <= k < |points| && points[k].z == lo.z)
    && (exists k :: 0 <= k < |points| && points[k].x == hi.x)
    && (exists k :: 0 <= k < |points| && points[k].y == hi.y)
    && (exists k :: 0 <= k < |points| && points[k].z == hi.z)
  }

  /** Every point lies between the two corners. */
  lemma {:induction false} MinMaxEncloses(points: seq<Vec3>)
    requires |points| > 0
    ensures forall k :: 0 <= k < |points| ==>
      Within(points[k], MinMax(points).value.0, MinMax(points).value.1)
  {
    var prefix := points[..|points| - 1];
    if |prefix| > 0 {
      MinMaxEncloses(prefix);
      assert forall k :: 0 <= k < |prefix| ==> prefix[k] == points[k];
    }
  }

  /** The corners are tight: no smaller box holds all the points. */
  lemma {:induction false} MinMaxAttained(points: seq<Vec3>)
    requires |points| > 0
    ensures Attained(points, MinMax(points).value.0, MinMax(points).value.1)
  {
    var prefix := points[..|points| - 1];
    var last := points[|points| - 1];
    if |prefix| == 0 {
      assert points[0] == last;
    } else {
      MinMaxAttained(prefix);
      assert forall k :: 0 <= k < |prefix| ==> prefix[k] == points[k];
    }
  }

  /** Folding one more point in is what the scan loops do per step. */
  lemma MinMaxSnoc(points: seq<Vec3>, p: Vec3)
    ensures MinMax(points + [p]) ==
      match MinMax(points)
      case None => Some((p, p))
      case Some(c) => Some((Vec3Min(c.0, p), Vec3Max(c.1, p)))
  {
    assert (points + [p])[..|points|] == points;
  }

  /** The box the source builds from a point set: centre at the midpoint of
      the corners, size their difference (`GetBounds`, and the end of
      `ReadPts`). */
  function BoundsOf(points: seq<Vec3>): (b: Option<Bounds>)
    ensures b.None? <==> |points| == 0
  {
    match MinMax(points)
    case None => None
    case Some(c) => Some(FromMinMax(c.0, c.1))
  }

  /** The box holds every point and each of its faces touches one. */
  lemma BoundsOfEncloses(points: seq<Vec3>)
    requires |points| > 0
    ensures forall k :: 0 <= k < |points| ==> BoundsOf(points).value.Contains(points[k])
    ensures Attained(points, BoundsOf(points).value.Min(), BoundsOf(points).value.Max())
  {
    MinMaxEncloses(points);
    MinMaxAttained(points);
  }
}
