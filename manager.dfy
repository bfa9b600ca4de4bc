/** The classifier of `Manager`: every point of the cloud gets the id of the
    closest building-component triangle within `MaxDistToObject` and that
    distance, and one line per point is appended to the export file.

    The octree of triangles is given as its query `GetColliding` (a function
    from a box to the triangles it returns), the point-to-triangle squared
    distance of g3 and `Mathf.Sqrt` as the functions of a `Metric`, the export
    file as its sequence of lines, and the point batches of
    `ImportPC.ReadPtsNPoints` as a sequence of batches. */
module Manager {
  import opened Wrappers
  import opened Geometry
  import ImportPC

  /** `BuildingComponentTriangle`: a world-space triangle labelled with the
      instance id of the `MeshFilter` it came from
      (`meshFilter.GetInstanceID()`). */
  datatype BuildingComponentTriangle = BuildingComponentTriangle(triangle: Triangle, objectId: int)

  /** `DistPoint3Triangle3(...).Compute().DistanceSquared` and `Mathf.Sqrt`. */
  datatype Metric = Metric(sqDist: (Vec3, Triangle) -> real, sqrt: real -> real)

  /** The inspector fields that steer `Start`. */
  datatype Settings = Settings(maxDistToObject: real, clearExportFile: bool,
                               distance: bool, coordinates: bool, objectId: bool)

  // ---------------------------------------------------------------------------
  // FindClosestObjectIdNDistance

  /** The box `new Bounds(point, new Vector3(boxSize, boxSize, boxSize))`. */
  function QueryBox(point: Vec3, boxSize: real): Bounds {
    Bounds(point, Vec3(boxSize, boxSize, boxSize))
  }

  /** With `boxSize = MaxDistToObject * 2` the query box reaches exactly
      `MaxDistToObject` from the point along each axis, so it holds every point
      that close on all three axes. */
  lemma QueryBoxReach(point: Vec3, maxDistToObject: real, q: Vec3)
    ensures QueryBox(point, maxDistToObject * 2.0).Min()
         == Vec3(point.x - maxDistToObject, point.y - maxDistToObject, point.z - maxDistToObject)
    ensures QueryBox(point, maxDistToObject * 2.0).Max()
         == Vec3(point.x + maxDistToObject, point.y + maxDistToObject, point.z + maxDistToObject)
    ensures QueryBox(point, maxDistToObject * 2.0).Contains(q) <==>
      && point.x - maxDistToObject <= q.x <= point.x + maxDistToObject
      && point.y - maxDistToObject <= q.y <= point.y + maxDistToObject
      && point.z - maxDistToObject <= q.z <= point.z + maxDistToObject
  {
  }

  /** The squared distances of the point to the candidates, in list order. */
  function Distances(point: Vec3, candidates: seq<BuildingComponentTriangle>, metric: Metric): (ds: seq<real>)
    ensures |ds| == |candidates|
  {
    seq(|candidates|, k requires 0 <= k < |candidates| => metric.sqDist(point, candidates[k].triangle))
  }

  /** The candidate the scan `if (closestDistance > d) { ... }` settles on
      after the first n distances, starting from the threshold: none when no
      distance is strictly below the threshold, otherwise the first of the
      smallest. */
  function Winner(ds: seq<real>, n: nat, threshold: real): (r: Option<nat>)
    requires n <= |ds|
    ensures r.Some? ==> r.value < n
  {
    if n == 0 then None
    else
      var w := Winner(ds, n - 1, threshold);
      var closest := if w.Some? then ds[w.value] else threshold;
      if closest > ds[n - 1] then Some(n - 1) else w
  }

  /** The scan finds nothing exactly when no distance is strictly below the
      threshold; otherwise it keeps the first of the smallest distances. */
  lemma {:induction false} WinnerMeaning(ds: seq<real>, n: nat, threshold: real)
    requires n <= |ds|
    ensures Winner(ds, n, threshold).None? <==> forall k :: 0 <= k < n ==> ds[k] >= threshold
    ensures Winner(ds, n, threshold).Some? ==>
      var w := Winner(ds, n, threshold).value;
      && ds[w] < threshold
      && (forall k :: 0 <= k < n ==> ds[w] <= ds[k])
      && (forall k :: 0 <= k < w ==> ds[w] < ds[k])
  {
    if n > 0 {
      WinnerMeaning(ds, n - 1, threshold);
    }
  }

  /** What `FindClosestObjectIdNDistance` returns for the given candidates:
      the sentinel id 0 at the threshold distance, or the winner's id at its
      distance. */
  function Closest(point: Vec3, squaredMaxDistanceToObject: real, candidates: seq<BuildingComponentTriangle>,
                   metric: Metric): (int, real)
  {
    var ds := Distances(point, candidates, metric);
    match Winner(ds, |ds|, squaredMaxDistanceToObject)
    case None => (0, metric.sqrt(squaredMaxDistanceToObject))
    case Some(w) => (candidates[w].objectId, metric.sqrt(ds[w]))
  }

  /** The id returned is the sentinel 0 or the id of one of the candidates. */
  lemma ClosestIdOrigin(point: Vec3, squaredMaxDistanceToObject: real, candidates: seq<BuildingComponentTriangle>,
                        metric: Metric)
    ensures var id := Closest(point, squaredMaxDistanceToObject, candidates, metric).0;
      id == 0 || exists k :: 0 <= k < |candidates| && candidates[k].objectId == id
  {
    var ds := Distances(point, candidates, metric);
    var w := Winner(ds, |ds|, squaredMaxDistanceToObject);
    if w.Some? {
      assert candidates[w.value].objectId == Closest(point, squaredMaxDistanceToObject, candidates, metric).0;
    }
  }

  /** With no candidate strictly closer than the threshold (none at all, or
      all at the threshold or beyond) the result is id 0 at the threshold. */
  lemma ClosestNoMatch(point: Vec3, squaredMaxDistanceToObject: real, candidates: seq<BuildingComponentTriangle>,
                       metric: Metric)
    requires forall k :: 0 <= k < |candidates| ==>
      metric.sqDist(point, candidates[k].triangle) >= squaredMaxDistanceToObject
    ensures Closest(point, squaredMaxDistanceToObject, candidates, metric)
         == (0, metric.sqrt(squaredMaxDistanceToObject))
  {
    var ds := Distances(point, candidates, metric);
    WinnerMeaning(ds, |ds|, squaredMaxDistanceToObject);
    assert forall k :: 0 <= k < |ds| ==> ds[k] == metric.sqDist(point, candidates[k].triangle);
  }

  /** When some candidate is strictly closer than the threshold, the result is
      the id and distance of a candidate that is nearest of all, and no earlier
      candidate is as near. */
  lemma ClosestMatch(point: Vec3, squaredMaxDistanceToObject: real, candidates: seq<BuildingComponentTriangle>,
                     metric: Metric)
    requires exists k :: 0 <= k < |candidates| && metric.sqDist(point, candidates[k].triangle) < squaredMaxDistanceToObject
    ensures exists w :: && 0 <= w < |candidates|
                        && Closest(point, squaredMaxDistanceToObject, candidates, metric)
                           == (candidates[w].objectId, metric.sqrt(metric.sqDist(point, candidates[w].triangle)))
                        && metric.sqDist(point, candidates[w].triangle) < squaredMaxDistanceToObject
                        && (forall k :: 0 <= k < |candidates| ==>
                              metric.sqDist(point, candidates[w].triangle) <= metric.sqDist(point, candidates[k].triangle))
                        && (forall k :: 0 <= k < w ==>
                              metric.sqDist(point, candidates[w].triangle) < metric.sqDist(point, candidates[k].triangle))
  {
    var ds := Distances(point, candidates, metric);
    WinnerMeaning(ds, |ds|, squaredMaxDistanceToObject);
    assert forall k :: 0 <= k < |ds| ==> ds[k] == metric.sqDist(point, candidates[k].triangle);
    var w := Winner(ds, |ds|, squaredMaxDistanceToObject).value;
    assert Closest(point, squaredMaxDistanceToObject, candidates, metric)
        == (candidates[w].objectId, metric.sqrt(ds[w]));
  }

  /** `Manager.FindClosestObjectIdNDistance`: query the octree with the box
      around the point, then scan the colliding triangles for the closest one
      strictly below the squared threshold. */
  method FindClosestObjectIdNDistance(point: Vec3, squaredMaxDistanceToObject: real, boxSize: real,
                                      getColliding: Bounds -> seq<BuildingComponentTriangle>, metric: Metric)
    returns (closestObjectId: int, distance: real)
    ensures (closestObjectId, distance)
         == Closest(point, squaredMaxDistanceToObject, getColliding(QueryBox(point, boxSize)), metric)
  {
    var candidates := getColliding(QueryBox(point, boxSize));
    ghost var ds := Distances(point, candidates, metric);
    closestObjectId := 0;
    var closestDistance := squaredMaxDistanceToObject;
    var n := 0;
    while n < |candidates|
      invariant n <= |candidates|
      invariant match Winner(ds, n, squaredMaxDistanceToObject)
        case None => closestObjectId == 0 && closestDistance == squaredMaxDistanceToObject
        case Some(w) => w < n && closestObjectId == candidates[w].objectId && closestDistance == ds[w]
    {
      var d := metric.sqDist(point, candidates[n].triangle);
      if closestDistance > d {
        closestDistance := d;
        closestObjectId := candidates[n].objectId;
      }
      n := n + 1;
    }
    distance := metric.sqrt(closestDistance);
  }

  // ---------------------------------------------------------------------------
  // The export line of a point

  /** One comma-separated field of an export line; the number formatting of
      the interpolated strings is not modelled. */
  datatype Cell = CoordCell(c: real) | IdCell(id: int) | DistCell(d: real)

  type Line = seq<Cell>

  /** The line `Start` puts in the slot of a point, or `null` (None). */
  function ExportLine(settings: Settings, p: Vec3, id: int, dist: real): Option<Line>
  {
    if settings.coordinates && settings.objectId && settings.distance then
      Some([CoordCell(p.x), CoordCell(p.z), CoordCell(p.y), IdCell(id), DistCell(dist)])
    else if settings.objectId && settings.distance then
      Some([IdCell(id), DistCell(dist)])
    else if settings.coordinates && settings.objectId then
      Some([CoordCell(p.x), CoordCell(p.z), CoordCell(p.y), IdCell(id)])
    else if settings.objectId then
      Some([IdCell(id)])
    else
      None
  }

  /** A line is written exactly when ids are exported; it holds the
      coordinates in x, z, y order when asked, then the id, then the distance
      when asked, and nothing else. */
  lemma ExportLineShape(settings: Settings, p: Vec3, id: int, dist: real)
    ensures ExportLine(settings, p, id, dist).Some? <==> settings.objectId
    ensures ExportLine(settings, p, id, dist).Some? ==>
      var line := ExportLine(settings, p, id, dist).value;
      && |line| == (if settings.coordinates then 3 else 0) + 1 + (if settings.distance then 1 else 0)
      && (settings.coordinates ==> line[..3] == [CoordCell(p.x), CoordCell(p.z), CoordCell(p.y)])
      && line[if settings.coordinates then 3 else 0] == IdCell(id)
      && (settings.distance ==> line[|line| - 1] == DistCell(dist))
      && (!settings.distance ==> forall k :: 0 <= k < |line| ==> !line[k].DistCell?)
  {
  }

  /** The export line of one cloud point, with the query box and the squared
      threshold `Start` derives from `MaxDistToObject`. */
  function LineFor(settings: Settings, p: Vec3, getColliding: Bounds -> seq<BuildingComponentTriangle>,
                   metric: Metric): Option<Line>
  {
    var boxSize := settings.maxDistToObject * 2.0;
    var squaredMaxDistanceToObject := settings.maxDistToObject * settings.maxDistToObject;
    var closest := Closest(p, squaredMaxDistanceToObject, getColliding(QueryBox(p, boxSize)), metric);
    ExportLine(settings, p, closest.0, closest.1)
  }

  lemma LineForUnfold(settings: Settings, p: Vec3, getColliding: Bounds -> seq<BuildingComponentTriangle>,
                      metric: Metric)
    ensures var closest := Closest(p, settings.maxDistToObject * settings.maxDistToObject,
                                   getColliding(QueryBox(p, settings.maxDistToObject * 2.0)), metric);
      LineFor(settings, p, getColliding, metric) == ExportLine(settings, p, closest.0, closest.1)
  {
  }

  /** Points read with `flipAxes` and written with coordinates come out with
      their fields in the order of the point file. */
  lemma FlippedExportKeepsFileOrder(fields: seq<string>, parseFloat: string -> Option<real>,
                                    settings: Settings, id: int, dist: real)
    requires ImportPC.ParseLine(fields, true, ImportPC.PlainKind, parseFloat).Ok?
    requires settings.coordinates && settings.objectId
    ensures var p := ImportPC.ParseLine(fields, true, ImportPC.PlainKind, parseFloat).value.pos;
      ExportLine(settings, p, id, dist).value[..3]
        == [CoordCell(parseFloat(fields[0]).value), CoordCell(parseFloat(fields[1]).value),
            CoordCell(parseFloat(fields[2]).value)]
  {
    ImportPC.ParseLineMeaning(fields, true, ImportPC.PlainKind, parseFloat);
    var p := ImportPC.ParseLine(fields, true, ImportPC.PlainKind, parseFloat).value.pos;
    ExportLineShape(settings, p, id, dist);
  }

  // ---------------------------------------------------------------------------
  // Start: the batch loop and the export file

  /** `WriteLineAsync(null)` writes an empty line. */
  function WrittenLine(slot: Option<Line>): Line {
    match slot
    case None => []
    case Some(line) => line
  }

  /** The lines `AsyncWriting` appends for the slots, in slot order. */
  function Written(slots: seq<Option<Line>>): (lines: seq<Line>)
    ensures |lines| == |slots|
  {
    seq(|slots|, k requires 0 <= k < |slots| => WrittenLine(slots[k]))
  }

  /** The lines the export file gains for the given points, one per point in
      input order. */
  function ExportedLines(settings: Settings, points: seq<Vec3>,
                         getColliding: Bounds -> seq<BuildingComponentTriangle>, metric: Metric): (lines: seq<Line>)
    ensures |lines| == |points|
  {
    seq(|points|, k requires 0 <= k < |points| => WrittenLine(LineFor(settings, points[k], getColliding, metric)))
  }

  /** A point gets an empty line exactly when ids are not exported. */
  lemma ExportedLineEmpty(settings: Settings, points: seq<Vec3>,
                          getColliding: Bounds -> seq<BuildingComponentTriangle>, metric: Metric, k: nat)
    requires k < |points|
    ensures ExportedLines(settings, points, getColliding, metric)[k] == [] <==> !settings.objectId
  {
    var p := points[k];
    var closest := Closest(p, settings.maxDistToObject * settings.maxDistToObject,
                           getColliding(QueryBox(p, settings.maxDistToObject * 2.0)), metric);
    ExportLineShape(settings, p, closest.0, closest.1);
  }

  lemma ExportedLinesAppend(settings: Settings, a: seq<Vec3>, b: seq<Vec3>,
                            getColliding: Bounds -> seq<BuildingComponentTriangle>, metric: Metric)
    ensures ExportedLines(settings, a + b, getColliding, metric)
         == ExportedLines(settings, a, getColliding, metric) + ExportedLines(settings, b, getColliding, metric)
  {
  }

  /** The batches one after the other. */
  function Flatten(batches: seq<seq<Vec3>>): seq<Vec3> {
    if |batches| == 0 then []
    else Flatten(batches[..|batches| - 1]) + batches[|batches| - 1]
  }

  /** The running total `pointsProcessed` after the given batches. */
  function PointCount(batches: seq<seq<Vec3>>): nat {
    if |batches| == 0 then 0
    else PointCount(batches[..|batches| - 1]) + |batches[|batches| - 1]|
  }

  /** The totals `Start` logs, one after each batch. */
  function Progress(batches: seq<seq<Vec3>>): seq<nat> {
    if |batches| == 0 then []
    else Progress(batches[..|batches| - 1]) + [PointCount(batches)]
  }

  /** One total per batch, each the number of points in the batches so far. */
  lemma {:induction false} ProgressMeaning(batches: seq<seq<Vec3>>)
    ensures |Progress(batches)| == |batches|
    ensures forall b :: 0 <= b < |batches| ==> Progress(batches)[b] == PointCount(batches[..b + 1])
  {
    if |batches| > 0 {
      var front := batches[..|batches| - 1];
      ProgressMeaning(front);
      forall b | 0 <= b < |front|
        ensures Progress(batches)[b] == PointCount(batches[..b + 1])
      {
        assert front[..b + 1] == batches[..b + 1];
      }
      assert batches[..|batches|] == batches;
    }
  }

  /** The export holds one line per point read. */
  lemma {:induction false} FlattenLength(batches: seq<seq<Vec3>>)
    ensures |Flatten(batches)| == PointCount(batches)
  {
    if |batches| > 0 {
      FlattenLength(batches[..|batches| - 1]);
    }
  }

  /** Point i of batch b is point `PointCount(batches[..b]) + i` of the run,
      so its line is that line of the export. */
  lemma {:induction false} FlattenIndex(batches: seq<seq<Vec3>>, b: nat, i: nat)
    requires b < |batches| && i < |batches[b]|
    ensures PointCount(batches[..b]) + i < |Flatten(batches)|
    ensures Flatten(batches)[PointCount(batches[..b]) + i] == batches[b][i]
  {
    var last := |batches| - 1;
    var front := batches[..last];
    FlattenLength(batches);
    FlattenLength(front);
    if b == last {
      assert batches[..b] == front;
    } else {
      assert front[..b] == batches[..b];
      FlattenIndex(front, b, i);
    }
  }

  /** The inner loop of `Start`: one slot per point of the batch, filled with
      the point's export line. */
  method ExportBatch(points: seq<Vec3>, settings: Settings,
                     getColliding: Bounds -> seq<BuildingComponentTriangle>, metric: Metric)
    returns (pointsToExport: array<Option<Line>>)
    ensures pointsToExport.Length == |points|
    ensures forall i :: 0 <= i < |points| ==> pointsToExport[i] == LineFor(settings, points[i], getColliding, metric)
  {
    var boxSize := settings.maxDistToObject * 2.0;
    var squaredMaxDistanceToObject := settings.maxDistToObject * settings.maxDistToObject;
    pointsToExport := new Option<Line>[|points|](_ => None);
    for i := 0 to |points|
      invariant forall t :: 0 <= t < i ==> pointsToExport[t] == LineFor(settings, points[t], getColliding, metric)
    {
      var line := ClassifyPoint(points[i], settings, boxSize, squaredMaxDistanceToObject, getColliding, metric);
      pointsToExport[i] := line;
    }
  }

  /** The body of the inner loop of `Start` for one point. */
  method ClassifyPoint(pointCloudPoint: Vec3, settings: Settings, boxSize: real, squaredMaxDistanceToObject: real,
                       getColliding: Bounds -> seq<BuildingComponentTriangle>, metric: Metric)
    returns (line: Option<Line>)
    requires boxSize == settings.maxDistToObject * 2.0
    requires squaredMaxDistanceToObject == settings.maxDistToObject * settings.maxDistToObject
    ensures line == LineFor(settings, pointCloudPoint, getColliding, metric)
  {
    var closestObjectId, closestDistance :=
      FindClosestObjectIdNDistance(pointCloudPoint, squaredMaxDistanceToObject, boxSize, getColliding, metric);
    line := ExportLine(settings, pointCloudPoint, closestObjectId, closestDistance);
    LineForUnfold(settings, pointCloudPoint, getColliding, metric);
  }

  /** `Manager.AsyncWriting`: append every slot to the file as one line. */
  method AsyncWriting(file: seq<Line>, points: array<Option<Line>>) returns (appended: seq<Line>)
    ensures appended == file + Written(points[..])
  {
    appended := file;
    for n := 0 to points.Length
      invariant appended == file + Written(points[..n])
    {
      assert Written(points[..n + 1]) == Written(points[..n]) + [WrittenLine(points[n])];
      appended := appended + [WrittenLine(points[n])];
    }
    assert points[..points.Length] == points[..];
  }

  /** Slots holding the export lines of a batch are written as its lines. */
  lemma WrittenBatch(points: seq<Vec3>, slots: seq<Option<Line>>, settings: Settings,
                     getColliding: Bounds -> seq<BuildingComponentTriangle>, metric: Metric)
    requires |slots| == |points|
    requires forall i :: 0 <= i < |points| ==> slots[i] == LineFor(settings, points[i], getColliding, metric)
    ensures Written(slots) == ExportedLines(settings, points, getColliding, metric)
  {
  }

  lemma AppendAssociative<T>(a: seq<T>, b: seq<T>, c: seq<T>)
    ensures (a + b) + c == a + (b + c)
  {
  }

  /** One more batch adds its lines to the export and its size to the count. */
  lemma StartStep(settings: Settings, batches: seq<seq<Vec3>>, b: nat,
                  getColliding: Bounds -> seq<BuildingComponentTriangle>, metric: Metric)
    requires b < |batches|
    ensures ExportedLines(settings, Flatten(batches[..b + 1]), getColliding, metric)
         == ExportedLines(settings, Flatten(batches[..b]), getColliding, metric)
            + ExportedLines(settings, batches[b], getColliding, metric)
    ensures PointCount(batches[..b + 1]) == PointCount(batches[..b]) + |batches[b]|
    ensures Progress(batches[..b + 1]) == Progress(batches[..b]) + [PointCount(batches[..b + 1])]
  {
    assert batches[..b + 1][..b] == batches[..b];
    ExportedLinesAppend(settings, Flatten(batches[..b]), batches[b], getColliding, metric);
  }

  /** One pass of the batch loop of `Start`: classify the batch into its
      slots, then append them to the file. */
  method ProcessBatch(file: seq<Line>, points: seq<Vec3>, settings: Settings,
                      getColliding: Bounds -> seq<BuildingComponentTriangle>, metric: Metric)
    returns (appended: seq<Line>)
    ensures appended == file + ExportedLines(settings, points, getColliding, metric)
  {
    var pointsToExport := ExportBatch(points, settings, getColliding, metric);
    WrittenBatch(points, pointsToExport[..], settings, getColliding, metric);
    appended := AsyncWriting(file, pointsToExport);
  }

  /** `Manager.Start` after the octree is built: clear the export file if
      asked, then classify batch after batch, append the lines of each batch
      and log the running total of processed points. */
  method Start(settings: Settings, existing: seq<Line>, batches: seq<seq<Vec3>>,
               getColliding: Bounds -> seq<BuildingComponentTriangle>, metric: Metric)
    returns (file: seq<Line>, progress: seq<nat>)
    ensures file == (if settings.clearExportFile then [] else existing)
                    + ExportedLines(settings, Flatten(batches), getColliding, metric)
    ensures progress == Progress(batches)
  {
    file := existing;
    if settings.clearExportFile {
      file := [];
    }
    ghost var start, exported := file, [];
    var pointsProcessed := 0;
    progress := [];
    for b := 0 to |batches|
      invariant file == start + exported
      invariant exported == ExportedLines(settings, Flatten(batches[..b]), getColliding, metric)
      invariant pointsProcessed == PointCount(batches[..b])
      invariant progress == Progress(batches[..b])
    {
      var points := batches[b];
      ghost var lines := ExportedLines(settings, points, getColliding, metric);
      file := ProcessBatch(file, points, settings, getColliding, metric);
      AppendAssociative(start, exported, lines);
      exported := exported + lines;
      StartStep(settings, batches, b, getColliding, metric);
      pointsProcessed := pointsProcessed + |points|;
      progress := progress + [pointsProcessed];
    }
    assert batches[..|batches|] == batches;
  }

  // ---------------------------------------------------------------------------
  // BuildingComponentTriangles

  /** `Manager.BuildingComponentTriangles`: one labelled world-space triangle
      per index triple of the mesh. Unity keeps a mesh's triangle list a
      multiple of three long with every index naming a vertex; `toWorld` is
      `transform.TransformPoint` and `id` is `meshFilter.GetInstanceID()`. */
  method BuildingComponentTriangles(vertices: seq<Vec3>, triangles: seq<int>, toWorld: Vec3 -> Vec3, id: int)
    returns (buildingComponentTriangles: array<BuildingComponentTriangle>)
    requires |triangles| % 3 == 0
    requires forall t :: 0 <= t < |triangles| ==> 0 <= triangles[t] < |vertices|
    ensures buildingComponentTriangles.Length == |triangles| / 3
    ensures forall j :: 0 <= j < |triangles| / 3 ==>
      buildingComponentTriangles[j] == BuildingComponentTriangle(
        Triangle(toWorld(vertices[triangles[3 * j]]), toWorld(vertices[triangles[3 * j + 1]]),
                 toWorld(vertices[triangles[3 * j + 2]])),
        id)
  {
    buildingComponentTriangles := new BuildingComponentTriangle[|triangles| / 3]
      (_ => BuildingComponentTriangle(Triangle(Origin, Origin, Origin), id));
    var i, j := 0, 0;
    while i < |triangles|
      invariant i == 3 * j && i <= |triangles|
      invariant forall t :: 0 <= t < j ==>
        buildingComponentTriangles[t] == BuildingComponentTriangle(
          Triangle(toWorld(vertices[triangles[3 * t]]), toWorld(vertices[triangles[3 * t + 1]]),
                   toWorld(vertices[triangles[3 * t + 2]])),
          id)
    {
      var vertex0 := toWorld(vertices[triangles[i]]);
      var vertex1 := toWorld(vertices[triangles[i + 1]]);
      var vertex2 := toWorld(vertices[triangles[i + 2]]);
      buildingComponentTriangles[j] := BuildingComponentTriangle(Triangle(vertex0, vertex1, vertex2), id);
      i, j := i + 3, j + 1;
    }
  }

  // ---------------------------------------------------------------------------
  // MinMaxBounds and GetBounds

  /** `Manager.MinMaxBounds`: fold `Vector3.Min` and `Vector3.Max` over the
      points; the infinite starting corners of the source are None here. */
  method MinMaxBounds(points: seq<Vec3>) returns (minMax: Option<(Vec3, Vec3)>)
    ensures minMax == MinMax(points)
  {
    minMax := None;
    for n := 0 to |points|
      invariant minMax == MinMax(points[..n])
    {
      MinMaxSnoc(points[..n], points[n]);
      assert points[..n + 1] == points[..n] + [points[n]];
      minMax := match minMax
        case None => Some((points[n], points[n]))
        case Some(c) => Some((Vec3Min(c.0, points[n]), Vec3Max(c.1, points[n])));
    }
    assert points[..|points|] == points;
  }

  /** `Manager.GetBounds`: the box from the min and max corners. */
  method GetBounds(points: seq<Vec3>) returns (bounds: Option<Bounds>)
    ensures bounds == BoundsOf(points)
  {
    var minMax := MinMaxBounds(points);
    bounds := match minMax
      case None => None
      case Some(c) => Some(FromMinMax(c.0, c.1));
  }

  /** The box a triangle is added to the octree with holds its three vertices. */
  lemma TriangleBoundsHoldVertices(t: Triangle)
    ensures BoundsOf([t.v0, t.v1, t.v2]).Some?
    ensures var b := BoundsOf([t.v0, t.v1, t.v2]).value;
      b.Contains(t.v0) && b.Contains(t.v1) && b.Contains(t.v2)
  {
    var vs := [t.v0, t.v1, t.v2];
    BoundsOfEncloses(vs);
    assert vs[0] == t.v0 && vs[1] == t.v1 && vs[2] == t.v2;
  }

  // ---------------------------------------------------------------------------
  // UpdateBoundsOctree: the scene bounds and the octree root

  /** `sceneBounds` after encapsulating the renderer boxes in order, starting
      from `new Bounds()`, the empty box at the origin. */
  function SceneBounds(rendererBounds: seq<Bounds>): Bounds {
    if |rendererBounds| == 0 then Bounds(Origin, Origin)
    else Encapsulate(SceneBounds(rendererBounds[..|rendererBounds| - 1]), rendererBounds[|rendererBounds| - 1])
  }

  lemma EnclosesTransitive(a: Bounds, b: Bounds, c: Bounds)
    requires a.Encloses(b) && b.Encloses(c)
    ensures a.Encloses(c)
  {
  }

  /** The scene bounds hold the origin and every renderer box. */
  lemma {:induction false} SceneBoundsEnclose(rendererBounds: seq<Bounds>)
    ensures SceneBounds(rendererBounds).Contains(Origin)
    ensures forall k :: 0 <= k < |rendererBounds| ==> SceneBounds(rendererBounds).Encloses(rendererBounds[k])
  {
    if |rendererBounds| > 0 {
      var front := rendererBounds[..|rendererBounds| - 1];
      var scene := SceneBounds(rendererBounds);
      SceneBoundsEnclose(front);
      forall k | 0 <= k < |rendererBounds|
        ensures scene.Encloses(rendererBounds[k])
      {
        if k < |front| {
          assert front[k] == rendererBounds[k];
          EnclosesTransitive(scene, SceneBounds(front), rendererBounds[k]);
        }
      }
    }
  }

  /** The scene box never has a negative extent. */
  lemma SceneBoundsSizeNonNegative(rendererBounds: seq<Bounds>)
    ensures Below(Origin, SceneBounds(rendererBounds).size)
  {
  }

  /** `Mathf.Max(size.x, Mathf.Max(size.y, size.z))`. */
  function LargestBoundsSize(b: Bounds): (s: real)
    ensures s >= b.size.x && s >= b.size.y && s >= b.size.z
    ensures s == b.size.x || s == b.size.y || s == b.size.z
  {
    RealMax(b.size.x, RealMax(b.size.y, b.size.z))
  }

  /** The arguments of `new BoundsOctree(initialWorldSize, initialWorldPos,
      minNodeSize, looseness)`. */
  datatype OctreeRoot = OctreeRoot(initialWorldSize: real, initialWorldPos: Vec3, minNodeSize: real, looseness: real)

  /** The cube the octree starts from. */
  function RootCube(root: OctreeRoot): Bounds {
    Bounds(root.initialWorldPos, Vec3(root.initialWorldSize, root.initialWorldSize, root.initialWorldSize))
  }

  /** `Manager.UpdateBoundsOctree` up to building the octree: grow the scene
      box over the renderer boxes, then size the root by its largest extent. */
  method UpdateBoundsOctree(rendererBounds: seq<Bounds>, octreeNodeSize: real) returns (root: OctreeRoot)
    ensures root == OctreeRoot(LargestBoundsSize(SceneBounds(rendererBounds)), SceneBounds(rendererBounds).center,
                               octreeNodeSize, 1.25)
  {
    var sceneBounds := Bounds(Origin, Origin);
    for n := 0 to |rendererBounds|
      invariant sceneBounds == SceneBounds(rendererBounds[..n])
    {
      assert rendererBounds[..n + 1][..n] == rendererBounds[..n];
      sceneBounds := Encapsulate(sceneBounds, rendererBounds[n]);
    }
    assert rendererBounds[..|rendererBounds|] == rendererBounds;
    var largestBoundsSize := RealMax(sceneBounds.size.x, RealMax(sceneBounds.size.y, sceneBounds.size.z));
    root := OctreeRoot(largestBoundsSize, sceneBounds.center, octreeNodeSize, 1.25);
  }

  /** The root cube holds the whole scene, and so every renderer box. */
  lemma RootCubeEnclosesScene(rendererBounds: seq<Bounds>, octreeNodeSize: real)
    ensures var scene := SceneBounds(rendererBounds);
      var cube := RootCube(OctreeRoot(LargestBoundsSize(scene), scene.center, octreeNodeSize, 1.25));
      && cube.Encloses(scene)
      && forall k :: 0 <= k < |rendererBounds| ==> cube.Encloses(rendererBounds[k])
  {
    var scene := SceneBounds(rendererBounds);
    var cube := RootCube(OctreeRoot(LargestBoundsSize(scene), scene.center, octreeNodeSize, 1.25));
    SceneBoundsEnclose(rendererBounds);
    forall k | 0 <= k < |rendererBounds|
      ensures cube.Encloses(rendererBounds[k])
    {
      EnclosesTransitive(cube, scene, rendererBounds[k]);
    }
  }
}
