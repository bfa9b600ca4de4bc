# Point-cloud labelling by nearest building component

This project models the core of a Unity tool that labels the points of a
point cloud with the building component (a mesh of the 3D model) they lie on.
The tool has two parts.

**The point-file reader (`ImportPC`).** A `.pts` file starts with a header
line holding the point count. Every later line holds the fields of one point.

- `ReadPts` sizes the point array from the header or from the cap
  `maxPointsToRead`.
- It keeps one data line in every `readEveryNthPoint + 1`, using a stride
  counter that must reach the stride and then resets.
- It stores at most `maxPointsToRead` points at the front of the array. It
  reads fields 1 and 2 as z and y when `flipAxes` is set.
- It returns the bounding box of the stored points.
- `ReadPtsOneByOnePoint` yields the points of a window that the header, the
  cap and an offset determine.

**The classifier (`Manager`).** Every triangle of every mesh becomes a
`BuildingComponentTriangle` labelled with the instance id of its
`MeshFilter` (`meshFilter.GetInstanceID()`). The
triangles go into an octree whose root cube is sized from the scene bounds.

- For each point of the cloud, `FindClosestObjectIdNDistance` queries the
  octree with a box of side `2 * MaxDistToObject` around the point.
- It keeps the candidate with the smallest squared distance that is strictly
  below `MaxDistToObject²`. The first such candidate wins ties, and id 0 means
  "none".
- `Start` then writes one line per point to the export file. The line holds
  x, z, y, the id and the distance, as the `Coordinates`, `ObjectId` and
  `Distance` flags ask. It logs a running total of the points processed.

**Modelling choices.**

- Floats are reals.
- Data lines are already split into fields. `int.Parse` and `float.Parse` are
  functions that return None where they would throw.
- The octree query is a function from a box to a list of triangles.
- The squared point-to-triangle distance and `Mathf.Sqrt` are the two
  functions of a `Metric`.
- The export file is its list of lines, and a line is its list of fields.
- The exceptions the readers throw are the `ReadError` values. A point that
  was never written (`null`) is None.
- The loops of the source are methods with loops: `FillPoints` (the loop of
  `ReadPts`), `ReadPtsOneByOnePoint`, `FindClosestObjectIdNDistance`,
  `Start`, `AsyncWriting`, `BuildingComponentTriangles`, `MinMaxBounds` and
  `UpdateBoundsOctree`. `BuildingComponentTriangles` and
  `ReadPtsOneByOnePoint` state their results outright. The others, and
  `ReadPts` around its fill loop, are proved equal to a specification
  function, and what the source promises is proved about that function as
  lemmas.

The files:

- `wrappers.dfy`: Option and Result.
- `geometry.dfy`: vectors, Unity's `Bounds`, and the component-wise min/max fold.
- `import_pc.dfy`: the reader.
- `manager.dfy`: the classifier.

## Model

| member | source | states |
|---|---|---|
| Geometry.FromMinMax | Point_classification/Assets/Scripts/Classification/Manager.cs:186-191 | the box with centre (min+max)/2 and size max-min spans exactly from min to max |
| Geometry.EncapsulatePoint | Point_classification/Assets/Scripts/Classification/Manager.cs:97 | the grown box holds the point and the whole old box |
| Geometry.Encapsulate | Point_classification/Assets/Scripts/Classification/Manager.cs:97 | the grown box holds the old box and both corners of the added box |
| Geometry.MinMaxEncloses | Point_classification/Assets/Scripts/Classification/Manager.cs:194-207 | every point lies component-wise between the folded min and max |
| Geometry.MinMaxAttained | Point_classification/Assets/Scripts/Classification/Manager.cs:194-207 | each of the six corner components is the component of some point |
| Geometry.BoundsOf | Point_classification/Assets/Scripts/Classification/Manager.cs:184-192 | there is a box exactly when there is a point |
| Geometry.BoundsOfEncloses | Point_classification/Assets/Scripts/Classification/Manager.cs:184-207 | the box holds every point and each face touches a point |
| ImportPC.ParseLineMeaning | Point_classification/Assets/Scripts/IO/ImportPC.cs:53-79 | a line parses iff its 3 (6 for colour) fields exist and parse; x is field 0; y and z are fields 1 and 2, swapped under flipAxes; colour comes from fields 3-5; each error names its cause |
| ImportPC.FlipSwapsYZ | Point_classification/Assets/Scripts/IO/ImportPC.cs:58-67 | flipping swaps y and z and changes nothing else |
| ImportPC.KeptIndices | Point_classification/Assets/Scripts/IO/ImportPC.cs:41-51 | the kept line numbers all lie below the number of lines read |
| ImportPC.KeptIndicesAreKept | Point_classification/Assets/Scripts/IO/ImportPC.cs:43-51 | every listed line passes the stride test |
| ImportPC.KeptIndicesComplete | Point_classification/Assets/Scripts/IO/ImportPC.cs:43-51 | every line that passes the stride test is listed |
| ImportPC.KeptIndicesIncreasing | Point_classification/Assets/Scripts/IO/ImportPC.cs:41-51 | kept lines come in file order, each once |
| ImportPC.KeptIndicesPrefix | Point_classification/Assets/Scripts/IO/ImportPC.cs:41-51 | reading further never changes which earlier lines were kept |
| ImportPC.StrideIsModulo | Point_classification/Assets/Scripts/IO/ImportPC.cs:43-51 | with N >= 0 the counter at line k is k mod (N+1), and line k is kept iff k mod (N+1) = N; with N < 0 the unbounded counter never reaches N, so nothing is kept |
| ImportPC.KeptCount | Point_classification/Assets/Scripts/IO/ImportPC.cs:43-51 | n lines keep n / (N+1) of them |
| ImportPC.KeepEveryLine | Point_classification/Assets/Scripts/IO/ImportPC.cs:43-51 | stride 0 keeps every line |
| ImportPC.KeptLinesAreKeptIndices | Point_classification/Assets/Scripts/IO/ImportPC.cs:41-53 | the kept lines are the lines at the kept line numbers |
| ImportPC.ParseAllMeaning | Point_classification/Assets/Scripts/IO/ImportPC.cs:53-79 | success gives each selected line's point in order; a failure is the error of a line after which nothing parsed |
| ImportPC.ParseAllErrSticky | Point_classification/Assets/Scripts/IO/ImportPC.cs:41-95 | once a read fails, reading more lines does not undo it |
| ImportPC.ParseAllErrPrefix | Point_classification/Assets/Scripts/IO/ImportPC.cs:41-95 | a failing prefix makes the whole read fail with the same error |
| ImportPC.ReadPts | Point_classification/Assets/Scripts/IO/ImportPC.cs:10-102 | the result is the reader's specification: header errors, array sizing, the kept lines up to the cap, padding and bounds |
| ImportPC.FillPoints | Point_classification/Assets/Scripts/IO/ImportPC.cs:38-99 | the loop stores the parsed selected lines at the front of the array, leaves the rest null, and returns their bounds, or the first parse error |
| ImportPC.StorePoint | Point_classification/Assets/Scripts/IO/ImportPC.cs:53-79 | one parsed line is written to the next free slot and nothing else changes |
| ImportPC.ScanIsSelected | Point_classification/Assets/Scripts/IO/ImportPC.cs:41-95 | the loop's line-by-line outcome equals parsing the selected lines |
| ImportPC.ReadPtsHeaderErrors | Point_classification/Assets/Scripts/IO/ImportPC.cs:23-27 | no header line is the ArgumentException; an unparsable header is the parse error |
| ImportPC.ReadPtsSizing | Point_classification/Assets/Scripts/IO/ImportPC.cs:28-35 | the array length is the header count when the cap is 0 and the cap otherwise; a negative length is an error and the only one at this step |
| ImportPC.ZeroCapReadsNothing | Point_classification/Assets/Scripts/IO/ImportPC.cs:41 | with cap 0 the array has the header's length, every slot is null and there are no bounds |
| ImportPC.ReadPtsStored | Point_classification/Assets/Scripts/IO/ImportPC.cs:41-94 | slot t holds the point of the t-th kept line for t below min(cap, kept lines); all later slots are null |
| ImportPC.SelectedStored | Point_classification/Assets/Scripts/IO/ImportPC.cs:41-94 | the parsed selected lines are the kept lines in order, as many as the cap allows |
| ImportPC.ReadPtsBounds | Point_classification/Assets/Scripts/IO/ImportPC.cs:81-99 | bounds exist iff some slot is filled; they hold every stored point, and each face touches a stored point |
| ImportPC.PaddedBoundsNone | Point_classification/Assets/Scripts/IO/ImportPC.cs:81-99 | there are no bounds exactly when no slot is filled |
| ImportPC.PaddedBoundsContain | Point_classification/Assets/Scripts/IO/ImportPC.cs:81-99 | the bounds hold every filled slot |
| ImportPC.PaddedBoundsAttained | Point_classification/Assets/Scripts/IO/ImportPC.cs:81-99 | each bound component is attained by a filled slot |
| ImportPC.StoredPositionsPadded | Point_classification/Assets/Scripts/IO/ImportPC.cs:74-94 | the filled slots in slot order are exactly the stored points |
| ImportPC.ReadPtsIgnoresSkippedLines | Point_classification/Assets/Scripts/IO/ImportPC.cs:43-47 | two files that agree on every kept line read the same, so skipped lines never reach the points or the bounds |
| ImportPC.ReadPtsFailure | Point_classification/Assets/Scripts/IO/ImportPC.cs:53-79 | a failed read reports the error of a kept line below the cap, and every kept line before it parsed |
| ImportPC.ReadPtsIntended | Point_classification/Assets/Scripts/IO/ImportPC.cs:28-41 | the reader with the loop bounded by the array length meets its specification |
| ImportPC.IntendedReadsEveryLine | Point_classification/Assets/Scripts/IO/ImportPC.cs:28-41 | with the default arguments and a header that counts the lines, every slot holds the point of its line |
| ImportPC.DefaultArgumentsReadNothing | Point_classification/Assets/Scripts/IO/ImportPC.cs:28-41 | as written, the same input yields a header-sized array of nulls |
| ImportPC.ReadPtsOneByOnePoint | Point_classification/Assets/Scripts/IO/ImportPC.cs:104-138 | header errors first; then the k-th yielded point is data line k read as a plain point; the run yields max(0, pointNum - offset) points unless a line fails to parse or is missing, and the failure names that line |
| Manager.QueryBoxReach | Point_classification/Assets/Scripts/Classification/Manager.cs:27 | the query box is centred on the point and reaches exactly MaxDistToObject along each axis |
| Manager.WinnerMeaning | Point_classification/Assets/Scripts/Classification/Manager.cs:124-134 | there is no match iff no distance is strictly below the threshold; a match is strictly below it, no larger than any distance, and strictly smaller than every earlier one |
| Manager.ClosestIdOrigin | Point_classification/Assets/Scripts/Classification/Manager.cs:124-132 | the id is 0 or the id of a colliding triangle |
| Manager.ClosestNoMatch | Point_classification/Assets/Scripts/Classification/Manager.cs:124-136 | with no candidate strictly closer than the threshold the result is id 0 at sqrt of the threshold |
| Manager.ClosestMatch | Point_classification/Assets/Scripts/Classification/Manager.cs:124-136 | with a candidate below the threshold the result is the id and sqrt distance of the first nearest candidate |
| Manager.FindClosestObjectIdNDistance | Point_classification/Assets/Scripts/Classification/Manager.cs:118-137 | the scan returns the closest-candidate result for the triangles the box query returns |
| Manager.ExportLineShape | Point_classification/Assets/Scripts/Classification/Manager.cs:50-66 | a line exists iff ObjectId is set; it is x, z, y when Coordinates is set, then the id, then the distance when Distance is set, and holds nothing else |
| Manager.FlippedExportKeepsFileOrder | Point_classification/Assets/Scripts/Classification/Manager.cs:53 | a point read with flipAxes is written back in its file's field order |
| Manager.ExportedLineEmpty | Point_classification/Assets/Scripts/Classification/Manager.cs:50-69 | a point's line in the file is empty exactly when ObjectId is off |
| Manager.ExportedLinesAppend | Point_classification/Assets/Scripts/Classification/Manager.cs:43-69 | exporting two runs of points one after the other gives their lines one after the other |
| Manager.ProgressMeaning | Point_classification/Assets/Scripts/Classification/Manager.cs:70-71 | one logged total per batch, equal to the number of points in the batches so far |
| Manager.FlattenLength | Point_classification/Assets/Scripts/Classification/Manager.cs:43-70 | the run has as many points as the final total |
| Manager.FlattenIndex | Point_classification/Assets/Scripts/Classification/Manager.cs:43-48 | point i of batch b is point (points of earlier batches + i) of the run, so it owns that line of the export |
| Manager.ClassifyPoint | Point_classification/Assets/Scripts/Classification/Manager.cs:48-66 | one point's slot gets its export line |
| Manager.ExportBatch | Point_classification/Assets/Scripts/Classification/Manager.cs:45-67 | one slot per point of the batch, in input order, holding that point's line |
| Manager.AsyncWriting | Point_classification/Assets/Scripts/Classification/Manager.cs:139-152 | the file gains one line per slot, in slot order, and a null slot becomes an empty line |
| Manager.WrittenBatch | Point_classification/Assets/Scripts/Classification/Manager.cs:45-69 | a batch's slots are written as that batch's lines |
| Manager.ProcessBatch | Point_classification/Assets/Scripts/Classification/Manager.cs:45-69 | one batch appends its points' lines to the file |
| Manager.Start | Point_classification/Assets/Scripts/Classification/Manager.cs:25-73 | the file is emptied if asked and then gains one line per point of every batch in order; the totals logged are the running sums of the batch lengths |
| Manager.BuildingComponentTriangles | Point_classification/Assets/Scripts/Classification/Manager.cs:154-172 | there are triangles.Length/3 entries; entry j uses vertices triangles[3j], [3j+1] and [3j+2] in world space, and every entry carries the MeshFilter's instance id |
| Manager.MinMaxBounds | Point_classification/Assets/Scripts/Classification/Manager.cs:194-207 | the loop computes the component-wise min/max fold |
| Manager.GetBounds | Point_classification/Assets/Scripts/Classification/Manager.cs:184-192 | the box built from the min and max corners |
| Manager.TriangleBoundsHoldVertices | Point_classification/Assets/Scripts/Classification/Manager.cs:111 | the box a triangle enters the octree with holds its three vertices |
| Manager.SceneBoundsEnclose | Point_classification/Assets/Scripts/Classification/Manager.cs:93-98 | the scene bounds hold the origin and every renderer box |
| Manager.SceneBoundsSizeNonNegative | Point_classification/Assets/Scripts/Classification/Manager.cs:93-98 | the scene bounds never have a negative extent |
| Manager.LargestBoundsSize | Point_classification/Assets/Scripts/Classification/Manager.cs:100 | the root size is at least each extent and equal to one of them |
| Manager.UpdateBoundsOctree | Point_classification/Assets/Scripts/Classification/Manager.cs:89-103 | the octree root is the largest extent of the encapsulated scene bounds, at their centre, with the given node size and looseness 1.25 |
| Manager.RootCubeEnclosesScene | Point_classification/Assets/Scripts/Classification/Manager.cs:93-103 | the root cube holds the scene bounds and every renderer box |

## Findings

| source | as written | input that shows it | evidently intended | confidence | as-written member | corrected member |
|---|---|---|---|---|---|---|
| Point_classification/Assets/Scripts/IO/ImportPC.cs:28-41 | `maxPointsToRead == 0` sizes the array from the header, but the loop guard `i < maxPointsToRead` then stops before the first line, so the default arguments store no point | a header "2" with two valid data lines, `maxPointsToRead = 0`, `readEveryNthPoint = 0`: the result is two null slots | a cap of 0 means "no cap": read up to the array length | medium, not executed | ImportPC.DefaultArgumentsReadNothing | ImportPC.IntendedReadsEveryLine |

`ImportPC.ReadPts` models the code as written, and `ImportPC.ReadPtsIntended`
is the corrected reader. The only call in the files modelled, the
visualisation in `Start`, passes `VisualiseNPoints`, which is 1000 by
default. No other member of the model depends on which reader is chosen.

## Left out

- The octree itself (`BoundsOctree` construction, `Add` and `GetColliding`) is a third-party library. Its query is a parameter.
- `UpdateBoundsOctree`: the loop that adds triangles is left out. Only the root parameters and the triangle boxes are modelled.
- g3's `DistPoint3Triangle3` and `Mathf.Sqrt` are parameters.
- The `(float)` casts and single-precision rounding are left out: floats are reals.
- Unity scene access is left out: `FindObjectsOfType`, `Renderer.bounds`, `GetInstanceID`, and the mesh data. The renderer boxes, the mesh arrays and `transform.TransformPoint` are parameters.
- `Start`'s visualisation branch and `CreatePointsInScene` create scene objects and are not modelled.
- File I/O is not modelled: `FileStream`, `StreamReader`, `File.WriteAllText` and `WriteLineAsync`. The file is its list of lines. `async`/`await` ordering is taken as sequential.
- `ImportPC.ReadPtsNPoints` is not part of this model. `Start` takes its batches as a parameter.
- `VectorToVector3d` and `Vector3dToVector` only convert between vector types (apart from a float cast). The model has one vector type.
- Number parsing and formatting are abstract. `int.Parse` and `float.Parse` are parameters, and `string.Split` is taken as done. Export fields are values, not formatted text.
- `ReadPts` with zero points stored: the source builds NaN/infinite bounds from its infinite start values. The model returns None there.
- `MinMaxBounds`: with no points the source returns the infinite corners. The model returns None.
- `ReadPtsOneByOnePoint`: reads plain points only. `Activator.CreateInstance` is called with three coordinates, which only `Point` accepts, so `PointColour` is not part of this model there.
- `Activator.CreateInstance` reflection is replaced by the `PointRecord` variant.
- `ReadPts` is generic over the point type. The variant is chosen by a `PointKind` argument.
- Manager.BuildingComponentTriangles: requires a triangle list whose length is a multiple of three and whose indices all name vertices. Unity keeps every mesh that way, and the out-of-range exceptions for other input are not modelled.
- ImportPC.StrideIsModulo: the stride counter `j` is a C# `int` that wraps around after 2^31 - 1; the model's counter is unbounded. For N >= 0 the counter resets before it can overflow, so the closed form holds for every line. For N < 0 the source's counter wraps after about 2^32 skipped lines and then keeps a line, which the clause "nothing is kept" does not capture.
- Manager.ProgressMeaning: `pointsProcessed` is a C# `int` that wraps around past 2^31 - 1 points; the model's totals are unbounded, so for runs that long the logged totals are not modelled.
- Manager.Start: the source builds the octree with node size `boxSize = MaxDistToObject * 2` (Manager.cs:27-28) before the batches are read. The model's `Start` takes the octree as its query function, so that `UpdateBoundsOctree` is called with `settings.maxDistToObject * 2.0` is not stated by its contract; `QueryBoxReach` covers the same `boxSize` for the query box.
- Manager.FindClosestObjectIdNDistance: the comparison uses the squared distance in double precision against a float threshold. The model compares reals.
