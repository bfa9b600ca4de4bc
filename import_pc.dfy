/** The point-file readers of `ImportPC`. A point file is a header line
    holding the point count, then one line per point whose delimiter-separated
    fields are x and then y,z (or z,y when the axes are flipped), optionally
    followed by red, green and blue.

    The file is given already read: `header` is the first line (None when the
    file is empty) and `lines` are the data lines, each already split at the
    delimiter. `int.Parse` and `float.Parse` are the functions in `Parsers`;
    a None from them is the `FormatException` the source would throw. */
module ImportPC {
  import opened Wrappers
  import opened Geometry

  /** `Point` (Point.cs) and the colour variant `PointColour`. */
  datatype PointRecord =
    | Point(pos: Vec3)
    | PointColour(pos: Vec3, red: real, green: real, blue: real)

  /** The record type the caller asks for, in place of the `typeof(T)` test. */
  datatype PointKind = PlainKind | ColourKind

  /** The exceptions the readers throw. */
  datatype ReadError =
    | NoPoints           // ArgumentException: the file has no header line
    | BadNumber          // FormatException from int.Parse or float.Parse
    | MissingField       // IndexOutOfRangeException: a line has too few fields
    | NegativeArraySize  // OverflowException: `new T[n]` with n < 0
    | MissingLine        // NullReferenceException: the file ends inside the window

  datatype Parsers = Parsers(parseInt: string -> Option<int>, parseFloat: string -> Option<real>)

  /** `PointCloud<T>`: the bounds of the stored points and the point array,
      whose unfilled slots hold `null` (None). */
  datatype PointCloud = PointCloud(bounds: Option<Bounds>, points: seq<Option<PointRecord>>)

  /** `float.Parse(pointValues[k])`. */
  function Field(fields: seq<string>, k: nat, parseFloat: string -> Option<real>): Result<real, ReadError> {
    if k < |fields| then
      match parseFloat(fields[k])
      case None => Err(BadNumber)
      case Some(v) => Ok(v)
    else Err(MissingField)
  }

  /** The first `n` fields exist and parse. */
  predicate FieldsParse(fields: seq<string>, n: nat, parseFloat: string -> Option<real>) {
    n <= |fields| && forall k :: 0 <= k < n ==> parseFloat(fields[k]).Some?
  }

  function FieldCount(kind: PointKind): nat {
    if kind == PlainKind then 3 else 6
  }

  /** One data line to one point record. */
  function ParseLine(fields: seq<string>, flipAxes: bool, kind: PointKind,
                     parseFloat: string -> Option<real>): Result<PointRecord, ReadError>
  {
    var x :- Field(fields, 0, parseFloat);
    var first :- Field(fields, 1, parseFloat);
    var second :- Field(fields, 2, parseFloat);
    var pos := if flipAxes then Vec3(x, second, first) else Vec3(x, first, second);
    if kind == PlainKind then Ok(Point(pos))
    else
      var red :- Field(fields, 3, parseFloat);
      var green :- Field(fields, 4, parseFloat);
      var blue :- Field(fields, 5, parseFloat);
      Ok(PointColour(pos, red, green, blue))
  }

  /** A line parses exactly when its first three (or six) fields exist and
      parse; x is field 0, y and z are fields 1 and 2 in the file's order or
      swapped, the colour is fields 3 to 5; a failure names its cause. */
  lemma ParseLineMeaning(fields: seq<string>, flipAxes: bool, kind: PointKind,
                         parseFloat: string -> Option<real>)
    ensures ParseLine(fields, flipAxes, kind, parseFloat).Ok? <==> FieldsParse(fields, FieldCount(kind), parseFloat)
    ensures ParseLine(fields, flipAxes, kind, parseFloat).Ok? ==>
      var p := ParseLine(fields, flipAxes, kind, parseFloat).value;
      && p.pos.x == parseFloat(fields[0]).value
      && p.pos.y == parseFloat(fields[if flipAxes then 2 else 1]).value
      && p.pos.z == parseFloat(fields[if flipAxes then 1 else 2]).value
      && (p.PointColour? <==> kind == ColourKind)
      && (p.PointColour? ==>
            && p.red == parseFloat(fields[3]).value
            && p.green == parseFloat(fields[4]).value
            && p.blue == parseFloat(fields[5]).value)
    ensures ParseLine(fields, flipAxes, kind, parseFloat) == Err(MissingField) ==> |fields| < FieldCount(kind)
    ensures ParseLine(fields, flipAxes, kind, parseFloat) == Err(BadNumber) ==>
      exists k :: 0 <= k < |fields| && k < FieldCount(kind) && parseFloat(fields[k]).None?
  {
  }

  /** Reading the fields with flipped axes swaps y and z, nothing else. */
  lemma FlipSwapsYZ(fields: seq<string>, kind: PointKind, parseFloat: string -> Option<real>)
    requires ParseLine(fields, false, kind, parseFloat).Ok?
    ensures var plain := ParseLine(fields, false, kind, parseFloat).value;
            var flipped := ParseLine(fields, true, kind, parseFloat).value;
            flipped.pos == Vec3(plain.pos.x, plain.pos.z, plain.pos.y)
            && (flipped.PointColour? ==> flipped.red == plain.red && flipped.green == plain.green
                                         && flipped.blue == plain.blue)
  {
  }

  // ---------------------------------------------------------------------------
  // ReadPts: the stride filter

  /** The stride counter `j` of `ReadPts` as it stands when data line k is
      read: it counts skipped lines and drops back to 0 after a kept one. */
  function StrideCounter(k: nat, readEveryNthPoint: int): int {
    if k == 0 then 0
    else
      var j := StrideCounter(k - 1, readEveryNthPoint);
      if j == readEveryNthPoint then 0 else j + 1
  }

  /** Line k passes the stride filter when the counter meets the stride. */
  predicate Kept(k: nat, readEveryNthPoint: int) {
    StrideCounter(k, readEveryNthPoint) == readEveryNthPoint
  }

  /** The kept lines among the first n, in file order. */
  function KeptIndices(n: nat, readEveryNthPoint: int): (r: seq<nat>)
    ensures forall t :: 0 <= t < |r| ==> r[t] < n
  {
    if n == 0 then []
    else KeptIndices(n - 1, readEveryNthPoint) + (if Kept(n - 1, readEveryNthPoint) then [n - 1] else [])
  }

  /** Every listed line is a kept line. */
  lemma {:induction false} KeptIndicesAreKept(n: nat, readEveryNthPoint: int)
    ensures forall t :: 0 <= t < |KeptIndices(n, readEveryNthPoint)| ==>
      Kept(KeptIndices(n, readEveryNthPoint)[t], readEveryNthPoint)
  {
    if n > 0 {
      KeptIndicesAreKept(n - 1, readEveryNthPoint);
    }
  }

  /** Every kept line among the first n is listed. */
  lemma {:induction false} KeptIndicesComplete(n: nat, readEveryNthPoint: int)
    ensures forall k :: 0 <= k < n && Kept(k, readEveryNthPoint) ==> k in KeptIndices(n, readEveryNthPoint)
  {
    if n > 0 {
      KeptIndicesComplete(n - 1, readEveryNthPoint);
      var prev := KeptIndices(n - 1, readEveryNthPoint);
      assert forall k :: k in prev ==> k in KeptIndices(n, readEveryNthPoint);
    }
  }

  /** The kept lines are listed in file order, each once. */
  lemma {:induction false} KeptIndicesIncreasing(n: nat, readEveryNthPoint: int)
    ensures forall s, t :: 0 <= s < t < |KeptIndices(n, readEveryNthPoint)| ==>
      KeptIndices(n, readEveryNthPoint)[s] < KeptIndices(n, readEveryNthPoint)[t]
  {
    if n > 0 {
      KeptIndicesIncreasing(n - 1, readEveryNthPoint);
    }
  }

  /** Reading further never changes which earlier lines were kept. */
  lemma {:induction false} KeptIndicesPrefix(k: nat, n: nat, readEveryNthPoint: int)
    requires k <= n
    ensures KeptIndices(k, readEveryNthPoint) <= KeptIndices(n, readEveryNthPoint)
  {
    if k < n {
      KeptIndicesPrefix(k, n - 1, readEveryNthPoint);
    }
  }

  lemma MulSign(x: int, m: int)
    requires m > 0
    ensures x >= 1 ==> x * m >= m
    ensures x <= -1 ==> x * m <= -m
  {
  }

  /** Euclidean division is unique: any q, r with a == q * m + r and
      0 <= r < m are the quotient and the remainder. */
  lemma DivModUnique(a: int, m: int, q: int, r: int)
    requires m > 0 && 0 <= r < m && a == q * m + r
    ensures a / m == q && a % m == r
  {
    var q', r' := a / m, a % m;
    assert (q - q') * m == r' - r;
    MulSign(q - q', m);
  }

  /** How the remainder moves from one line to the next. */
  lemma ModStep(a: nat, m: int)
    requires m > 0
    ensures (a + 1) % m == if a % m == m - 1 then 0 else a % m + 1
    ensures (a + 1) / m == if a % m == m - 1 then a / m + 1 else a / m
  {
    var q, r := a / m, a % m;
    assert a == q * m + r;
    if r == m - 1 {
      assert a + 1 == (q + 1) * m + 0;
      DivModUnique(a + 1, m, q + 1, 0);
    } else {
      DivModUnique(a + 1, m, q, r + 1);
    }
  }

  /** The stride in closed form: with `readEveryNthPoint` = N >= 0 the counter
      is k mod (N + 1), so line k is kept exactly when k mod (N + 1) = N; with
      N < 0 the counter, unbounded here, only grows and no line is ever kept
      (the source's 32-bit counter would wrap after about 2^32 lines). */
  lemma {:induction false} StrideIsModulo(k: nat, readEveryNthPoint: int)
    ensures readEveryNthPoint >= 0 ==> StrideCounter(k, readEveryNthPoint) == k % (readEveryNthPoint + 1)
    ensures readEveryNthPoint < 0 ==> StrideCounter(k, readEveryNthPoint) == k
    ensures Kept(k, readEveryNthPoint) <==>
      readEveryNthPoint >= 0 && k % (readEveryNthPoint + 1) == readEveryNthPoint
  {
    if k > 0 {
      StrideIsModulo(k - 1, readEveryNthPoint);
      if readEveryNthPoint >= 0 {
        ModStep(k - 1, readEveryNthPoint + 1);
      }
    }
  }

  /** One line in every N + 1 is kept: the first n lines keep n / (N + 1). */
  lemma {:induction false} KeptCount(n: nat, readEveryNthPoint: int)
    requires readEveryNthPoint >= 0
    ensures |KeptIndices(n, readEveryNthPoint)| == n / (readEveryNthPoint + 1)
  {
    if n > 0 {
      KeptCount(n - 1, readEveryNthPoint);
      StrideIsModulo(n - 1, readEveryNthPoint);
      ModStep(n - 1, readEveryNthPoint + 1);
    }
  }

  /** With `readEveryNthPoint == 0` every line is kept. */
  lemma {:induction false} KeepEveryLine(n: nat)
    ensures |KeptIndices(n, 0)| == n
    ensures forall t :: 0 <= t < n ==> KeptIndices(n, 0)[t] == t
  {
    if n > 0 {
      KeepEveryLine(n - 1);
      StrideIsModulo(n - 1, 0);
    }
  }

  // ---------------------------------------------------------------------------
  // ReadPts: the specification

  /** The kept lines among the first n data lines, in file order. This is
      `KeptIndices` read through `lines` (`KeptLinesAreKeptIndices`), kept in
      the loop's own line-by-line form so that the loop proofs unfold one line
      at a time. */
  function KeptLines(lines: seq<seq<string>>, n: nat, readEveryNthPoint: int): seq<seq<string>>
    requires n <= |lines|
  {
    if n == 0 then []
    else KeptLines(lines, n - 1, readEveryNthPoint)
         + (if Kept(n - 1, readEveryNthPoint) then [lines[n - 1]] else [])
  }

  /** The kept lines are the lines at the kept indices. */
  lemma {:induction false} KeptLinesAreKeptIndices(lines: seq<seq<string>>, n: nat, readEveryNthPoint: int)
    requires n <= |lines|
    ensures |KeptLines(lines, n, readEveryNthPoint)| == |KeptIndices(n, readEveryNthPoint)|
    ensures forall t :: 0 <= t < |KeptIndices(n, readEveryNthPoint)| ==>
      KeptLines(lines, n, readEveryNthPoint)[t] == lines[KeptIndices(n, readEveryNthPoint)[t]]
  {
    if n > 0 {
      KeptLinesAreKeptIndices(lines, n - 1, readEveryNthPoint);
    }
  }

  /** Reading line k adds it to the kept lines exactly when it is kept. */
  lemma KeptLinesStep(lines: seq<seq<string>>, k: nat, readEveryNthPoint: int)
    requires k < |lines|
    ensures Kept(k, readEveryNthPoint) ==>
      KeptLines(lines, k + 1, readEveryNthPoint) == KeptLines(lines, k, readEveryNthPoint) + [lines[k]]
    ensures !Kept(k, readEveryNthPoint) ==>
      KeptLines(lines, k + 1, readEveryNthPoint) == KeptLines(lines, k, readEveryNthPoint)
  {
    assert KeptLines(lines, k, readEveryNthPoint) + [] == KeptLines(lines, k, readEveryNthPoint);
  }

  /** Reading further never changes which earlier lines were kept. */
  lemma {:induction false} KeptLinesPrefix(lines: seq<seq<string>>, k: nat, n: nat, readEveryNthPoint: int)
    requires k <= n <= |lines|
    ensures KeptLines(lines, k, readEveryNthPoint) <= KeptLines(lines, n, readEveryNthPoint)
  {
    if k < n {
      KeptLinesPrefix(lines, k, n - 1, readEveryNthPoint);
    }
  }

  /** The lines `ReadPts` stores: the kept ones, at most `maxPointsToRead`. */
  function Selected(lines: seq<seq<string>>, readEveryNthPoint: int, maxPointsToRead: int): seq<seq<string>> {
    var kept := KeptLines(lines, |lines|, readEveryNthPoint);
    if maxPointsToRead <= 0 then []
    else kept[..if maxPointsToRead < |kept| then maxPointsToRead else |kept|]
  }

  /** Parse the given lines in order; the first failure is the result. */
  function ParseAll(lines: seq<seq<string>>, flipAxes: bool, kind: PointKind,
                    parseFloat: string -> Option<real>): (r: Result<seq<PointRecord>, ReadError>)
    ensures r.Ok? ==> |r.value| == |lines|
  {
    if |lines| == 0 then Ok([])
    else
      var stored :- ParseAll(lines[..|lines| - 1], flipAxes, kind, parseFloat);
      var p :- ParseLine(lines[|lines| - 1], flipAxes, kind, parseFloat);
      Ok(stored + [p])
  }

  /** A successful run parsed every line; a failed run stopped at the first
      line that does not parse, and every line before it parsed. */
  lemma {:induction false} ParseAllMeaning(lines: seq<seq<string>>, flipAxes: bool, kind: PointKind,
                                           parseFloat: string -> Option<real>)
    ensures var r := ParseAll(lines, flipAxes, kind, parseFloat);
      && (r.Ok? ==> forall t :: 0 <= t < |lines| ==> ParseLine(lines[t], flipAxes, kind, parseFloat) == Ok(r.value[t]))
      && (r.Err? ==>
            exists t :: && 0 <= t < |lines|
                        && ParseLine(lines[t], flipAxes, kind, parseFloat) == Err(r.error)
                        && forall s :: 0 <= s < t ==> ParseLine(lines[s], flipAxes, kind, parseFloat).Ok?)
  {
    if |lines| > 0 {
      var init := lines[..|lines| - 1];
      ParseAllMeaning(init, flipAxes, kind, parseFloat);
      assert forall t :: 0 <= t < |init| ==> init[t] == lines[t];
    }
  }

  /** A failure among the first lines is the failure of the whole run. */
  lemma {:induction false} ParseAllErrSticky(lines: seq<seq<string>>, m: nat, flipAxes: bool,
                                             kind: PointKind, parseFloat: string -> Option<real>)
    requires m <= |lines|
    requires ParseAll(lines[..m], flipAxes, kind, parseFloat).Err?
    ensures ParseAll(lines, flipAxes, kind, parseFloat) == ParseAll(lines[..m], flipAxes, kind, parseFloat)
  {
    if m < |lines| {
      assert lines[..|lines| - 1][..m] == lines[..m];
      ParseAllErrSticky(lines[..|lines| - 1], m, flipAxes, kind, parseFloat);
    } else {
      assert lines[..m] == lines;
    }
  }

  lemma ParseAllErrPrefix(part: seq<seq<string>>, all: seq<seq<string>>, flipAxes: bool,
                          kind: PointKind, parseFloat: string -> Option<real>)
    requires part <= all
    requires ParseAll(part, flipAxes, kind, parseFloat).Err?
    ensures ParseAll(all, flipAxes, kind, parseFloat) == ParseAll(part, flipAxes, kind, parseFloat)
  {
    assert all[..|part|] == part;
    ParseAllErrSticky(all, |part|, flipAxes, kind, parseFloat);
  }

  function Positions(stored: seq<PointRecord>): (r: seq<Vec3>)
    ensures |r| == |stored| && forall t :: 0 <= t < |stored| ==> r[t] == stored[t].pos
  {
    seq(|stored|, t requires 0 <= t < |stored| => stored[t].pos)
  }

  /** The point array: the stored points at the front, `null` after them. */
  function Padded(stored: seq<PointRecord>, size: nat): (r: seq<Option<PointRecord>>)
    ensures |r| == size
  {
    seq(size, t requires 0 <= t < size => if t < |stored| then Some(stored[t]) else None)
  }

  /** The array length of `ReadPts`: the header count when there is no cap. */
  function ArraySize(pointNum: int, maxPointsToRead: int): int {
    if maxPointsToRead == 0 then pointNum else maxPointsToRead
  }

  /** What `ReadPts` returns or throws: the header errors, then the selected
      lines parsed in order, stored from slot 0 on, and their bounds. */
  function ReadPtsSpec(header: Option<string>, lines: seq<seq<string>>, kind: PointKind, flipAxes: bool,
                       maxPointsToRead: int, readEveryNthPoint: int, parsers: Parsers): Result<PointCloud, ReadError>
  {
    if header.None? then Err(NoPoints)
    else match parsers.parseInt(header.value)
      case None => Err(BadNumber)
      case Some(pointNum) =>
        var size := ArraySize(pointNum, maxPointsToRead);
        if size < 0 then Err(NegativeArraySize)
        else
          match ParseAll(Selected(lines, readEveryNthPoint, maxPointsToRead), flipAxes, kind, parsers.parseFloat)
          case Err(e) => Err(e)
          case Ok(stored) => Ok(PointCloud(BoundsOf(Positions(stored)), Padded(stored, size)))
  }

  // ---------------------------------------------------------------------------
  // ReadPts: the reading loop

  lemma ParseAllSnoc(lines: seq<seq<string>>, line: seq<string>, flipAxes: bool, kind: PointKind,
                     parseFloat: string -> Option<real>)
    requires ParseAll(lines, flipAxes, kind, parseFloat).Ok?
    ensures ParseAll(lines + [line], flipAxes, kind, parseFloat) ==
      match ParseLine(line, flipAxes, kind, parseFloat)
      case Err(e) => Err(e)
      case Ok(p) => Ok(ParseAll(lines, flipAxes, kind, parseFloat).value + [p])
  {
    assert (lines + [line])[..|lines|] == lines;
  }

  lemma PaddedSnoc(stored: seq<PointRecord>, p: PointRecord, size: nat)
    requires |stored| < size
    ensures Padded(stored + [p], size) == Padded(stored, size)[|stored| := Some(p)]
  {
  }

  lemma PositionsSnoc(stored: seq<PointRecord>, p: PointRecord)
    ensures Positions(stored + [p]) == Positions(stored) + [p.pos]
  {
  }

  lemma TakePrefix<T>(a: seq<T>, b: seq<T>, m: int)
    requires a <= b && |a| <= m
    ensures a <= b[..if m < |b| then m else |b|]
  {
  }

  /** A failing kept line below the cap is the failure `ReadPts` reports. */
  lemma SelectedFailure(lines: seq<seq<string>>, k: nat, readEveryNthPoint: int, maxPointsToRead: int,
                        flipAxes: bool, kind: PointKind, parseFloat: string -> Option<real>)
    requires k <= |lines|
    requires |KeptLines(lines, k, readEveryNthPoint)| <= maxPointsToRead
    requires ParseAll(KeptLines(lines, k, readEveryNthPoint), flipAxes, kind, parseFloat).Err?
    ensures ParseAll(Selected(lines, readEveryNthPoint, maxPointsToRead), flipAxes, kind, parseFloat)
         == ParseAll(KeptLines(lines, k, readEveryNthPoint), flipAxes, kind, parseFloat)
  {
    var kept := KeptLines(lines, k, readEveryNthPoint);
    KeptLinesPrefix(lines, k, |lines|, readEveryNthPoint);
    TakePrefix(kept, KeptLines(lines, |lines|, readEveryNthPoint), maxPointsToRead);
    ParseAllErrPrefix(kept, Selected(lines, readEveryNthPoint, maxPointsToRead), flipAxes, kind, parseFloat);
  }

  /** When the loop stops, the lines it kept are the selected ones. */
  lemma SelectedAtExit(lines: seq<seq<string>>, k: nat, readEveryNthPoint: int, maxPointsToRead: int)
    requires k <= |lines| && maxPointsToRead >= 0
    requires k == 0 || |KeptLines(lines, k, readEveryNthPoint)| <= maxPointsToRead
    requires k == |lines| || |KeptLines(lines, k, readEveryNthPoint)| >= maxPointsToRead
    ensures Selected(lines, readEveryNthPoint, maxPointsToRead) == KeptLines(lines, k, readEveryNthPoint)
  {
    KeptLinesPrefix(lines, k, |lines|, readEveryNthPoint);
  }

  /** The six bounds variables after one more point: the source compares the
      new coordinates against them, with +/-infinity before the first point. */
  lemma TrackBounds(stored: seq<PointRecord>, p: PointRecord,
                    minX: real, minY: real, minZ: real, maxX: real, maxY: real, maxZ: real)
    requires |stored| > 0 ==> MinMax(Positions(stored)) == Some((Vec3(minX, minY, minZ), Vec3(maxX, maxY, maxZ)))
    ensures var first := |stored| == 0;
      MinMax(Positions(stored + [p])) == Some((
        Vec3(if first || p.pos.x < minX then p.pos.x else minX,
             if first || p.pos.y < minY then p.pos.y else minY,
             if first || p.pos.z < minZ then p.pos.z else minZ),
        Vec3(if first || p.pos.x > maxX then p.pos.x else maxX,
             if first || p.pos.y > maxY then p.pos.y else maxY,
             if first || p.pos.z > maxZ then p.pos.z else maxZ)))
  {
    PositionsSnoc(stored, p);
    MinMaxSnoc(Positions(stored), p.pos);
  }

  lemma FinalBounds(stored: seq<PointRecord>,
                    minX: real, minY: real, minZ: real, maxX: real, maxY: real, maxZ: real)
    requires |stored| > 0 ==> MinMax(Positions(stored)) == Some((Vec3(minX, minY, minZ), Vec3(maxX, maxY, maxZ)))
    ensures BoundsOf(Positions(stored)) ==
      if |stored| == 0 then None else Some(FromMinMax(Vec3(minX, minY, minZ), Vec3(maxX, maxY, maxZ)))
  {
  }

  /** `ReadPtsSpec` once the header has given the array size. */
  lemma ReadPtsSpecUnfold(header: Option<string>, lines: seq<seq<string>>, kind: PointKind, flipAxes: bool,
                          maxPointsToRead: int, readEveryNthPoint: int, parsers: Parsers, size: nat)
    requires header.Some? && parsers.parseInt(header.value).Some?
    requires size == ArraySize(parsers.parseInt(header.value).value, maxPointsToRead)
    ensures ReadPtsSpec(header, lines, kind, flipAxes, maxPointsToRead, readEveryNthPoint, parsers) ==
      match ParseAll(Selected(lines, readEveryNthPoint, maxPointsToRead), flipAxes, kind, parsers.parseFloat)
      case Err(e) => Err(e)
      case Ok(stored) => Ok(PointCloud(BoundsOf(Positions(stored)), Padded(stored, size)))
  {
  }

  /** `ImportPC.ReadPts`: the header fixes the array size, then `FillPoints`
      reads the data lines into the array. */
  method ReadPts(header: Option<string>, lines: seq<seq<string>>, kind: PointKind, flipAxes: bool,
                 maxPointsToRead: int, readEveryNthPoint: int, parsers: Parsers)
    returns (res: Result<PointCloud, ReadError>)
    ensures res == ReadPtsSpec(header, lines, kind, flipAxes, maxPointsToRead, readEveryNthPoint, parsers)
  {
    if header.None? {
      return Err(NoPoints);
    }
    var parsedCount := parsers.parseInt(header.value);
    if parsedCount.None? {
      return Err(BadNumber);
    }
    var pointNum := parsedCount.value;
    var size := ArraySize(pointNum, maxPointsToRead);
    if size < 0 {
      return Err(NegativeArraySize);
    }
    var points := new Option<PointRecord>[size](_ => None);
    assert points[..] == Padded([], size);
    var filled := FillPoints(points, lines, kind, flipAxes, maxPointsToRead, readEveryNthPoint, parsers.parseFloat);
    ReadPtsSpecUnfold(header, lines, kind, flipAxes, maxPointsToRead, readEveryNthPoint, parsers, size);
    match filled
    case Err(e) => return Err(e);
    case Ok(bounds) => return Ok(PointCloud(bounds, points[..]));
  }

  /** The rest of the reading loop of `ReadPts` from data line k with stride
      counter j and the points stored so far: the loop's remaining work. */
  ghost function Scan(lines: seq<seq<string>>, k: nat, j: int, stored: seq<PointRecord>,
                      readEveryNthPoint: int, maxPointsToRead: int, flipAxes: bool, kind: PointKind,
                      parseFloat: string -> Option<real>): Result<seq<PointRecord>, ReadError>
    requires k <= |lines|
    decreases |lines| - k
  {
    if k == |lines| || |stored| >= maxPointsToRead then Ok(stored)
    else if readEveryNthPoint != j then
      Scan(lines, k + 1, j + 1, stored, readEveryNthPoint, maxPointsToRead, flipAxes, kind, parseFloat)
    else match ParseLine(lines[k], flipAxes, kind, parseFloat)
      case Err(e) => Err(e)
      case Ok(p) => Scan(lines, k + 1, 0, stored + [p], readEveryNthPoint, maxPointsToRead, flipAxes, kind, parseFloat)
  }

  /** The loop, run from any state it can reach, ends in the closed form: the
      selected lines parsed in order. */
  lemma {:induction false} ScanIsSelected(lines: seq<seq<string>>, k: nat, stored: seq<PointRecord>,
                                          readEveryNthPoint: int, maxPointsToRead: int, flipAxes: bool,
                                          kind: PointKind, parseFloat: string -> Option<real>)
    requires k <= |lines| && |stored| <= maxPointsToRead
    requires ParseAll(KeptLines(lines, k, readEveryNthPoint), flipAxes, kind, parseFloat) == Ok(stored)
    ensures Scan(lines, k, StrideCounter(k, readEveryNthPoint), stored, readEveryNthPoint, maxPointsToRead,
                 flipAxes, kind, parseFloat)
         == ParseAll(Selected(lines, readEveryNthPoint, maxPointsToRead), flipAxes, kind, parseFloat)
    decreases |lines| - k
  {
    var j := StrideCounter(k, readEveryNthPoint);
    if k == |lines| || |stored| >= maxPointsToRead {
      SelectedAtExit(lines, k, readEveryNthPoint, maxPointsToRead);
    } else {
      KeptLinesStep(lines, k, readEveryNthPoint);
      if readEveryNthPoint != j {
        ScanIsSelected(lines, k + 1, stored, readEveryNthPoint, maxPointsToRead, flipAxes, kind, parseFloat);
      } else {
        ParseAllSnoc(KeptLines(lines, k, readEveryNthPoint), lines[k], flipAxes, kind, parseFloat);
        match ParseLine(lines[k], flipAxes, kind, parseFloat)
        case Err(e) =>
          SelectedFailure(lines, k + 1, readEveryNthPoint, maxPointsToRead, flipAxes, kind, parseFloat);
        case Ok(p) =>
          ScanIsSelected(lines, k + 1, stored + [p], readEveryNthPoint, maxPointsToRead, flipAxes, kind, parseFloat);
      }
    }
  }

  /** One kept line of `ReadPts`: its fields are parsed and the point goes to
      slot i of the array. */
  method StorePoint(points: array<Option<PointRecord>>, i: nat, line: seq<string>, flipAxes: bool,
                    kind: PointKind, parseFloat: string -> Option<real>, ghost stored: seq<PointRecord>)
    returns (parsed: Result<PointRecord, ReadError>)
    requires i == |stored| < points.Length
    requires points[..] == Padded(stored, points.Length)
    modifies points
    ensures parsed == ParseLine(line, flipAxes, kind, parseFloat)
    ensures parsed.Ok? ==> points[..] == Padded(stored + [parsed.value], points.Length)
  {
    parsed := ParseLine(line, flipAxes, kind, parseFloat);
    if parsed.Ok? {
      points[i] := Some(parsed.value);
      PaddedSnoc(stored, parsed.value, points.Length);
    }
  }

  /** The reading loop of `ReadPts`: the data lines run through the stride
      counter `j` and the cap `maxPointsToRead`, the kept ones are parsed into
      consecutive slots of `points`, and the six bounds variables follow them.
      The result is the bounds of the stored points, or the first parse error. */
  method FillPoints(points: array<Option<PointRecord>>, lines: seq<seq<string>>, kind: PointKind, flipAxes: bool,
                    maxPointsToRead: int, readEveryNthPoint: int, parseFloat: string -> Option<real>)
    returns (res: Result<Option<Bounds>, ReadError>)
    requires 0 <= maxPointsToRead <= points.Length
    requires points[..] == Padded([], points.Length)
    modifies points
    ensures match ParseAll(Selected(lines, readEveryNthPoint, maxPointsToRead), flipAxes, kind, parseFloat)
      case Err(e) => res == Err(e)
      case Ok(stored) => res == Ok(BoundsOf(Positions(stored))) && points[..] == Padded(stored, points.Length)
  {
    // The source starts the minima at +infinity and the maxima at -infinity;
    // here `i == 0` stands for those starting values.
    var minX, minY, minZ := 0.0, 0.0, 0.0;
    var maxX, maxY, maxZ := 0.0, 0.0, 0.0;
    ghost var stored: seq<PointRecord> := [];
    ScanIsSelected(lines, 0, stored, readEveryNthPoint, maxPointsToRead, flipAxes, kind, parseFloat);
    ghost var outcome := Scan(lines, 0, 0, stored, readEveryNthPoint, maxPointsToRead, flipAxes, kind, parseFloat);
    var i := 0;
    var j := 0;
    var k := 0;  // data lines read so far
    while k < |lines| && i < maxPointsToRead
      invariant 0 <= k <= |lines|
      invariant i == |stored|
      invariant Scan(lines, k, j, stored, readEveryNthPoint, maxPointsToRead, flipAxes, kind, parseFloat) == outcome
      invariant points[..] == Padded(stored, points.Length)
      invariant i > 0 ==> MinMax(Positions(stored)) == Some((Vec3(minX, minY, minZ), Vec3(maxX, maxY, maxZ)))
    {
      var line := lines[k];
      k := k + 1;
      if readEveryNthPoint != j {
        j := j + 1;
        continue;
      } else {
        j := 0;
      }
      var parsed := StorePoint(points, i, line, flipAxes, kind, parseFloat, stored);
      if parsed.Err? {
        return Err(parsed.error);
      }
      var p := parsed.value;
      TrackBounds(stored, p, minX, minY, minZ, maxX, maxY, maxZ);
      minX := if i == 0 || p.pos.x < minX then p.pos.x else minX;
      minY := if i == 0 || p.pos.y < minY then p.pos.y else minY;
      minZ := if i == 0 || p.pos.z < minZ then p.pos.z else minZ;
      maxX := if i == 0 || p.pos.x > maxX then p.pos.x else maxX;
      maxY := if i == 0 || p.pos.y > maxY then p.pos.y else maxY;
      maxZ := if i == 0 || p.pos.z > maxZ then p.pos.z else maxZ;
      stored := stored + [p];
      i := i + 1;
    }
    FinalBounds(stored, minX, minY, minZ, maxX, maxY, maxZ);
    var bounds := if i == 0 then None
                  else Some(FromMinMax(Vec3(minX, minY, minZ), Vec3(maxX, maxY, maxZ)));
    return Ok(bounds);
  }

  // ---------------------------------------------------------------------------
  // ReadPts: properties

  /** A file without a header line is the `ArgumentException`, and a header
      that is not a number the `FormatException` of `int.Parse`; both come
      before any data line is looked at. */
  lemma ReadPtsHeaderErrors(header: Option<string>, lines: seq<seq<string>>, kind: PointKind, flipAxes: bool,
                            maxPointsToRead: int, readEveryNthPoint: int, parsers: Parsers)
    ensures header.None? ==>
      ReadPtsSpec(header, lines, kind, flipAxes, maxPointsToRead, readEveryNthPoint, parsers) == Err(NoPoints)
    ensures header.Some? && parsers.parseInt(header.value).None? ==>
      ReadPtsSpec(header, lines, kind, flipAxes, maxPointsToRead, readEveryNthPoint, parsers) == Err(BadNumber)
  {
  }

  /** The array is as long as the header count when the cap is 0 and as the
      cap otherwise; a negative length is the `OverflowException`. */
  lemma ReadPtsSizing(header: Option<string>, lines: seq<seq<string>>, kind: PointKind, flipAxes: bool,
                      maxPointsToRead: int, readEveryNthPoint: int, parsers: Parsers)
    requires header.Some? && parsers.parseInt(header.value).Some?
    ensures var pointNum := parsers.parseInt(header.value).value;
      var r := ReadPtsSpec(header, lines, kind, flipAxes, maxPointsToRead, readEveryNthPoint, parsers);
      && (r.Ok? ==> |r.value.points| == if maxPointsToRead == 0 then pointNum else maxPointsToRead)
      && (r == Err(NegativeArraySize) <==> (if maxPointsToRead == 0 then pointNum else maxPointsToRead) < 0)
  {
    var r := ReadPtsSpec(header, lines, kind, flipAxes, maxPointsToRead, readEveryNthPoint, parsers);
    if ArraySize(parsers.parseInt(header.value).value, maxPointsToRead) >= 0 {
      ParseAllMeaning(Selected(lines, readEveryNthPoint, maxPointsToRead), flipAxes, kind, parsers.parseFloat);
    }
  }

  /** With `maxPointsToRead == 0` the loop guard fails at once: the array has
      the header's length and every slot stays `null`, and there are no bounds. */
  lemma ZeroCapReadsNothing(header: Option<string>, lines: seq<seq<string>>, kind: PointKind, flipAxes: bool,
                            readEveryNthPoint: int, parsers: Parsers)
    requires ReadPtsSpec(header, lines, kind, flipAxes, 0, readEveryNthPoint, parsers).Ok?
    ensures var cloud := ReadPtsSpec(header, lines, kind, flipAxes, 0, readEveryNthPoint, parsers).value;
      && |cloud.points| == parsers.parseInt(header.value).value
      && cloud.bounds.None?
      && forall t :: 0 <= t < |cloud.points| ==> cloud.points[t].None?
  {
  }

  /** The stored points: slot t holds the point of the t-th kept data line, for
      as many kept lines as the cap allows; every later slot stays `null`. */
  lemma ReadPtsStored(header: Option<string>, lines: seq<seq<string>>, kind: PointKind, flipAxes: bool,
                      maxPointsToRead: int, readEveryNthPoint: int, parsers: Parsers)
    requires ReadPtsSpec(header, lines, kind, flipAxes, maxPointsToRead, readEveryNthPoint, parsers).Ok?
    ensures var cloud := ReadPtsSpec(header, lines, kind, flipAxes, maxPointsToRead, readEveryNthPoint, parsers).value;
      var kept := KeptIndices(|lines|, readEveryNthPoint);
      var n := if maxPointsToRead <= 0 then 0
               else if maxPointsToRead < |kept| then maxPointsToRead else |kept|;
      && n <= |cloud.points|
      && (forall t :: 0 <= t < n ==>
            cloud.points[t].Some? && ParseLine(lines[kept[t]], flipAxes, kind, parsers.parseFloat) == Ok(cloud.points[t].value))
      && (forall t :: n <= t < |cloud.points| ==> cloud.points[t].None?)
  {
    var stored := ParseAll(Selected(lines, readEveryNthPoint, maxPointsToRead), flipAxes, kind, parsers.parseFloat).value;
    var cloud := ReadPtsSpec(header, lines, kind, flipAxes, maxPointsToRead, readEveryNthPoint, parsers).value;
    assert cloud.points == Padded(stored, |cloud.points|);
    SelectedStored(lines, readEveryNthPoint, maxPointsToRead, flipAxes, kind, parsers.parseFloat);
  }

  /** The points parsed from the selected lines are those of the kept lines,
      in order, up to the cap. */
  lemma SelectedStored(lines: seq<seq<string>>, readEveryNthPoint: int, maxPointsToRead: int, flipAxes: bool,
                       kind: PointKind, parseFloat: string -> Option<real>)
    requires ParseAll(Selected(lines, readEveryNthPoint, maxPointsToRead), flipAxes, kind, parseFloat).Ok?
    ensures var stored := ParseAll(Selected(lines, readEveryNthPoint, maxPointsToRead), flipAxes, kind, parseFloat).value;
      var kept := KeptIndices(|lines|, readEveryNthPoint);
      && |stored| == (if maxPointsToRead <= 0 then 0 else if maxPointsToRead < |kept| then maxPointsToRead else |kept|)
      && forall t :: 0 <= t < |stored| ==> ParseLine(lines[kept[t]], flipAxes, kind, parseFloat) == Ok(stored[t])
  {
    var selected := Selected(lines, readEveryNthPoint, maxPointsToRead);
    KeptLinesAreKeptIndices(lines, |lines|, readEveryNthPoint);
    ParseAllMeaning(selected, flipAxes, kind, parseFloat);
  }

  /** The stored points lie in the returned bounds, each face of the box
      touches one of them, and there are bounds exactly when a point was stored. */
  lemma ReadPtsBounds(header: Option<string>, lines: seq<seq<string>>, kind: PointKind, flipAxes: bool,
                      maxPointsToRead: int, readEveryNthPoint: int, parsers: Parsers)
    requires ReadPtsSpec(header, lines, kind, flipAxes, maxPointsToRead, readEveryNthPoint, parsers).Ok?
    ensures var cloud := ReadPtsSpec(header, lines, kind, flipAxes, maxPointsToRead, readEveryNthPoint, parsers).value;
      && (cloud.bounds.None? <==> forall t :: 0 <= t < |cloud.points| ==> cloud.points[t].None?)
      && (cloud.bounds.Some? ==>
            && (forall t :: 0 <= t < |cloud.points| && cloud.points[t].Some? ==>
                  cloud.bounds.value.Contains(cloud.points[t].value.pos))
            && Attained(StoredPositions(cloud.points), cloud.bounds.value.Min(), cloud.bounds.value.Max()))
  {
    var stored := ParseAll(Selected(lines, readEveryNthPoint, maxPointsToRead), flipAxes, kind, parsers.parseFloat).value;
    var size := |ReadPtsSpec(header, lines, kind, flipAxes, maxPointsToRead, readEveryNthPoint, parsers).value.points|;
    PaddedBoundsNone(stored, size);
    if |stored| > 0 {
      PaddedBoundsContain(stored, size);
      PaddedBoundsAttained(stored, size);
    }
  }

  /** The bounds are missing exactly when no slot is filled. */
  lemma PaddedBoundsNone(stored: seq<PointRecord>, size: nat)
    requires |stored| <= size
    ensures BoundsOf(Positions(stored)).None? <==> forall t :: 0 <= t < size ==> Padded(stored, size)[t].None?
  {
    if |stored| > 0 {
      assert Padded(stored, size)[0].Some?;
    }
  }

  /** The bounds hold every filled slot. */
  lemma PaddedBoundsContain(stored: seq<PointRecord>, size: nat)
    requires 0 < |stored| <= size
    ensures forall t :: 0 <= t < size && Padded(stored, size)[t].Some? ==>
      BoundsOf(Positions(stored)).value.Contains(Padded(stored, size)[t].value.pos)
  {
    var points := Padded(stored, size);
    var bounds := BoundsOf(Positions(stored)).value;
    BoundsOfEncloses(Positions(stored));
    forall t | 0 <= t < size && points[t].Some?
      ensures bounds.Contains(points[t].value.pos)
    {
      assert t < |stored| && points[t].value.pos == Positions(stored)[t];
    }
  }

  /** The corners of the bounds are attained by the filled slots. */
  lemma PaddedBoundsAttained(stored: seq<PointRecord>, size: nat)
    requires 0 < |stored| <= size
    ensures Attained(StoredPositions(Padded(stored, size)),
                     BoundsOf(Positions(stored)).value.Min(), BoundsOf(Positions(stored)).value.Max())
  {
    StoredPositionsPadded(stored, size);
    BoundsOfEncloses(Positions(stored));
  }

  /** The positions of the filled slots, in slot order. */
  function StoredPositions(points: seq<Option<PointRecord>>): seq<Vec3> {
    if |points| == 0 then []
    else StoredPositions(points[..|points| - 1])
         + (match points[|points| - 1] case Some(p) => [p.pos] case None => [])
  }

  lemma {:induction false} StoredPositionsPadded(stored: seq<PointRecord>, size: nat)
    requires |stored| <= size
    ensures StoredPositions(Padded(stored, size)) == Positions(stored)
  {
    if size > 0 {
      var front := Padded(stored, size)[..size - 1];
      if |stored| == size {
        assert front == Padded(stored[..size - 1], size - 1);
        StoredPositionsPadded(stored[..size - 1], size - 1);
        assert Positions(stored) == Positions(stored[..size - 1]) + [stored[size - 1].pos];
      } else {
        assert front == Padded(stored, size - 1);
        StoredPositionsPadded(stored, size - 1);
      }
    }
  }

  /** Lines the stride skips are never looked at: two files that agree on
      every kept data line read the same. */
  lemma ReadPtsIgnoresSkippedLines(header: Option<string>, lines: seq<seq<string>>, other: seq<seq<string>>,
                                   kind: PointKind, flipAxes: bool, maxPointsToRead: int,
                                   readEveryNthPoint: int, parsers: Parsers)
    requires |lines| == |other|
    requires forall k :: 0 <= k < |lines| && Kept(k, readEveryNthPoint) ==> lines[k] == other[k]
    ensures ReadPtsSpec(header, lines, kind, flipAxes, maxPointsToRead, readEveryNthPoint, parsers)
         == ReadPtsSpec(header, other, kind, flipAxes, maxPointsToRead, readEveryNthPoint, parsers)
  {
    KeptLinesAgree(lines, other, |lines|, readEveryNthPoint);
  }

  lemma {:induction false} KeptLinesAgree(lines: seq<seq<string>>, other: seq<seq<string>>, n: nat,
                                          readEveryNthPoint: int)
    requires n <= |lines| && n <= |other|
    requires forall k :: 0 <= k < n && Kept(k, readEveryNthPoint) ==> lines[k] == other[k]
    ensures KeptLines(lines, n, readEveryNthPoint) == KeptLines(other, n, readEveryNthPoint)
  {
    if n > 0 {
      KeptLinesAgree(lines, other, n - 1, readEveryNthPoint);
    }
  }

  /** A failed read reports the error of a selected line, and every selected
      line before it parsed. */
  lemma ReadPtsFailure(header: Option<string>, lines: seq<seq<string>>, kind: PointKind, flipAxes: bool,
                       maxPointsToRead: int, readEveryNthPoint: int, parsers: Parsers)
    requires header.Some? && parsers.parseInt(header.value).Some?
    requires ArraySize(parsers.parseInt(header.value).value, maxPointsToRead) >= 0
    requires ReadPtsSpec(header, lines, kind, flipAxes, maxPointsToRead, readEveryNthPoint, parsers).Err?
    ensures var e := ReadPtsSpec(header, lines, kind, flipAxes, maxPointsToRead, readEveryNthPoint, parsers).error;
      var kept := KeptIndices(|lines|, readEveryNthPoint);
      exists t :: && 0 <= t < |kept| && t < maxPointsToRead
                  && ParseLine(lines[kept[t]], flipAxes, kind, parsers.parseFloat) == Err(e)
                  && forall s :: 0 <= s < t ==> ParseLine(lines[kept[s]], flipAxes, kind, parsers.parseFloat).Ok?
  {
    var selected := Selected(lines, readEveryNthPoint, maxPointsToRead);
    var kept := KeptIndices(|lines|, readEveryNthPoint);
    var r := ParseAll(selected, flipAxes, kind, parsers.parseFloat);
    KeptLinesAreKeptIndices(lines, |lines|, readEveryNthPoint);
    ParseAllMeaning(selected, flipAxes, kind, parsers.parseFloat);
    var t :| && 0 <= t < |selected|
             && ParseLine(selected[t], flipAxes, kind, parsers.parseFloat) == Err(r.error)
             && forall s :: 0 <= s < t ==> ParseLine(selected[s], flipAxes, kind, parsers.parseFloat).Ok?;
    assert forall s :: 0 <= s <= t ==> selected[s] == lines[kept[s]];
  }

  // ---------------------------------------------------------------------------
  // ReadPts with the cap read as intended

  /** `ReadPts` with `maxPointsToRead == 0` meaning "no cap": the loop runs up
      to the array length, which is the header count in that case. */
  function ReadPtsIntendedSpec(header: Option<string>, lines: seq<seq<string>>, kind: PointKind, flipAxes: bool,
                               maxPointsToRead: int, readEveryNthPoint: int, parsers: Parsers): Result<PointCloud, ReadError>
  {
    if header.None? then Err(NoPoints)
    else match parsers.parseInt(header.value)
      case None => Err(BadNumber)
      case Some(pointNum) =>
        ReadPtsSpec(header, lines, kind, flipAxes, ArraySize(pointNum, maxPointsToRead), readEveryNthPoint, parsers)
  }

  /** `ReadPts` with the loop guard `i < points.Length` in place of `i < maxPointsToRead`. */
  method ReadPtsIntended(header: Option<string>, lines: seq<seq<string>>, kind: PointKind, flipAxes: bool,
                         maxPointsToRead: int, readEveryNthPoint: int, parsers: Parsers)
    returns (res: Result<PointCloud, ReadError>)
    ensures res == ReadPtsIntendedSpec(header, lines, kind, flipAxes, maxPointsToRead, readEveryNthPoint, parsers)
  {
    if header.None? {
      return Err(NoPoints);
    }
    var parsedCount := parsers.parseInt(header.value);
    if parsedCount.None? {
      return Err(BadNumber);
    }
    var pointNum := parsedCount.value;
    var size := ArraySize(pointNum, maxPointsToRead);
    if size < 0 {
      return Err(NegativeArraySize);
    }
    var points := new Option<PointRecord>[size](_ => None);
    assert points[..] == Padded([], size);
    var filled := FillPoints(points, lines, kind, flipAxes, size, readEveryNthPoint, parsers.parseFloat);
    ReadPtsSpecUnfold(header, lines, kind, flipAxes, size, readEveryNthPoint, parsers, size);
    match filled
    case Err(e) => return Err(e);
    case Ok(bounds) => return Ok(PointCloud(bounds, points[..]));
  }

  /** With the default arguments and a header that counts the data lines, the
      intended reader fills every slot with the point of the matching line. */
  lemma IntendedReadsEveryLine(header: Option<string>, lines: seq<seq<string>>, kind: PointKind, flipAxes: bool,
                               parsers: Parsers)
    requires header.Some? && parsers.parseInt(header.value) == Some(|lines|)
    requires ReadPtsIntendedSpec(header, lines, kind, flipAxes, 0, 0, parsers).Ok?
    ensures var cloud := ReadPtsIntendedSpec(header, lines, kind, flipAxes, 0, 0, parsers).value;
      && |cloud.points| == |lines|
      && forall t :: 0 <= t < |lines| ==>
           cloud.points[t].Some? && ParseLine(lines[t], flipAxes, kind, parsers.parseFloat) == Ok(cloud.points[t].value)
  {
    ReadPtsStored(header, lines, kind, flipAxes, |lines|, 0, parsers);
    ReadPtsSizing(header, lines, kind, flipAxes, |lines|, 0, parsers);
    KeepEveryLine(|lines|);
  }

  /** The source as written, on the same input, stores nothing: every slot of
      the header-sized array stays `null`. */
  lemma DefaultArgumentsReadNothing(header: Option<string>, lines: seq<seq<string>>, kind: PointKind, flipAxes: bool,
                                    parsers: Parsers)
    requires header.Some? && parsers.parseInt(header.value) == Some(|lines|) && |lines| > 0
    ensures ReadPtsSpec(header, lines, kind, flipAxes, 0, 0, parsers).Ok?
    ensures var cloud := ReadPtsSpec(header, lines, kind, flipAxes, 0, 0, parsers).value;
      |cloud.points| == |lines| && forall t :: 0 <= t < |lines| ==> cloud.points[t].None?
  {
    ZeroCapReadsNothing(header, lines, kind, flipAxes, 0, parsers);
  }

  // ---------------------------------------------------------------------------
  // ReadPtsOneByOnePoint

  /** The loop bound `pointNum`: the cap when it is non-zero, otherwise the
      header count (the header is only parsed in that case). */
  function WindowEnd(header: string, maxPointsToRead: int, parseInt: string -> Option<int>): Option<int>
  {
    if maxPointsToRead != 0 then Some(maxPointsToRead) else parseInt(header)
  }

  /** How many times `for (i = offset; i < pointNum; i++)` runs. */
  function WindowSize(pointNum: int, offset: int): nat
  {
    if pointNum > offset then pointNum - offset else 0
  }

  /** `ImportPC.ReadPtsOneByOnePoint`: the points of the window, one per data
      line from the first data line on (the offset shortens the run, it skips
      no line), as plain points. The iterator is run to its end: `yielded` is
      what it produced and `failure` the exception that stopped it, if any. */
  method ReadPtsOneByOnePoint(header: Option<string>, lines: seq<seq<string>>, flipAxes: bool,
                              offset: int, maxPointsToRead: int, parsers: Parsers)
    returns (yielded: seq<PointRecord>, failure: Option<ReadError>)
    ensures header.None? ==> yielded == [] && failure == Some(NoPoints)
    ensures header.Some? && WindowEnd(header.value, maxPointsToRead, parsers.parseInt).None? ==>
      yielded == [] && failure == Some(BadNumber)
    ensures header.Some? && WindowEnd(header.value, maxPointsToRead, parsers.parseInt).Some? ==>
      var count := WindowSize(WindowEnd(header.value, maxPointsToRead, parsers.parseInt).value, offset);
      && |yielded| <= count
      && (failure.None? <==> |yielded| == count)
      && |yielded| <= |lines|
      && (forall t :: 0 <= t < |yielded| ==>
            ParseLine(lines[t], flipAxes, PlainKind, parsers.parseFloat) == Ok(yielded[t]))
      && (failure.Some? && |yielded| < |lines| ==>
            ParseLine(lines[|yielded|], flipAxes, PlainKind, parsers.parseFloat) == Err(failure.value))
      && (failure.Some? && |yielded| >= |lines| ==> failure == Some(MissingLine))
  {
    yielded := [];
    if header.None? {
      return [], Some(NoPoints);
    }
    var pointNum: int;
    if maxPointsToRead != 0 {
      pointNum := maxPointsToRead;
    } else {
      var parsedCount := parsers.parseInt(header.value);
      if parsedCount.None? {
        return [], Some(BadNumber);
      }
      pointNum := parsedCount.value;
    }
    ghost var count := WindowSize(pointNum, offset);
    var i := offset;
    while i < pointNum
      invariant offset <= i && (i <= pointNum || i == offset)
      invariant |yielded| == i - offset <= count
      invariant |yielded| <= |lines|
      invariant forall t :: 0 <= t < |yielded| ==>
        ParseLine(lines[t], flipAxes, PlainKind, parsers.parseFloat) == Ok(yielded[t])
    {
      var k := i - offset;  // the data line this pass reads
      if k >= |lines| {
        return yielded, Some(MissingLine);
      }
      var parsed := ParseLine(lines[k], flipAxes, PlainKind, parsers.parseFloat);
      if parsed.Err? {
        return yielded, Some(parsed.error);
      }
      yielded := yielded + [parsed.value];
      i := i + 1;
    }
    failure := None;
  }
}
