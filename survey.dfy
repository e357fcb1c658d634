/** The survey-grid generator of the simulation server
    (`generate_survey_pattern`) and the mission summary derived from it.

    Coordinates are exact reals. The source advances its sweep variables by
    repeatedly adding the spacing to a float (`current_lat += grid_spacing`);
    this model writes the k-th step directly as `lo + k * spacing`, which is the
    value that float accumulation approximates. That is the one deliberate
    abstraction of the model. */
module Survey {
  import opened Geo

  datatype Action = Photo

  /** A generated photo point: position, flight altitude and camera action. */
  datatype SurveyPoint = SurveyPoint(lat: real, lng: real, altitude: real, action: Action)

  /** The latitude/longitude bounding box of the polygon. */
  datatype Bounds = Bounds(minLat: real, maxLat: real, minLon: real, maxLon: real)

  /** What the generator returns: the input list itself when it is too short to
      be a polygon, or the generated list of photo points. */
  datatype Pattern = Unchanged(waypoints: seq<Waypoint>) | Grid(points: seq<SurveyPoint>)

  /** Distance between neighbouring grid points, in degrees (about 10 m). */
  const GridSpacing: real := 0.0001
  /** How much higher the perpendicular pass flies than the primary pass. */
  const PerpendicularClimb: real := 10.0
  /** Flight time budgeted per generated point, in seconds. */
  const SecondsPerPoint: nat := 3

  // ---------------------------------------------------------------------------
  // Bounding box
  // ---------------------------------------------------------------------------

  function Lats(ws: seq<Waypoint>): (xs: seq<real>)
    ensures |xs| == |ws|
  {
    seq(|ws|, i requires 0 <= i < |ws| => ws[i].lat)
  }

  function Lons(ws: seq<Waypoint>): (xs: seq<real>)
    ensures |xs| == |ws|
  {
    seq(|ws|, i requires 0 <= i < |ws| => ws[i].lng)
  }

  /** Python's `min` over a non-empty list. */
  function Min(xs: seq<real>): (m: real)
    requires |xs| > 0
    ensures forall i :: 0 <= i < |xs| ==> m <= xs[i]
    ensures exists i :: 0 <= i < |xs| && xs[i] == m
  {
    if |xs| == 1 then xs[0]
    else
      var rest := Min(xs[1..]);
      if xs[0] <= rest then xs[0] else rest
  }

  /** Python's `max` over a non-empty list. */
  function Max(xs: seq<real>): (m: real)
    requires |xs| > 0
    ensures forall i :: 0 <= i < |xs| ==> xs[i] <= m
    ensures exists i :: 0 <= i < |xs| && xs[i] == m
  {
    if |xs| == 1 then xs[0]
    else
      var rest := Max(xs[1..]);
      if xs[0] >= rest then xs[0] else rest
  }

  predicate WellFormed(b: Bounds) {
    b.minLat <= b.maxLat && b.minLon <= b.maxLon
  }

  predicate InBox(b: Bounds, lat: real, lng: real) {
    b.minLat <= lat <= b.maxLat && b.minLon <= lng <= b.maxLon
  }

  /** The box of lines 87-91: it contains every waypoint, and each of its four
      sides is touched by some waypoint. */
  function BoundingBox(ws: seq<Waypoint>): (b: Bounds)
    requires |ws| > 0
    ensures WellFormed(b)
    ensures forall i :: 0 <= i < |ws| ==> InBox(b, ws[i].lat, ws[i].lng)
    ensures exists i :: 0 <= i < |ws| && ws[i].lat == b.minLat
    ensures exists i :: 0 <= i < |ws| && ws[i].lat == b.maxLat
    ensures exists i :: 0 <= i < |ws| && ws[i].lng == b.minLon
    ensures exists i :: 0 <= i < |ws| && ws[i].lng == b.maxLon
  {
    var lats, lons := Lats(ws), Lons(ws);
    assert forall i :: 0 <= i < |ws| ==> lats[i] == ws[i].lat && lons[i] == ws[i].lng;
    Bounds(Min(lats), Max(lats), Min(lons), Max(lons))
  }

  // ---------------------------------------------------------------------------
  // Sweeps: how many grid steps fit between two bounds, and where step j lies
  // ---------------------------------------------------------------------------

  /** The j-th step from `lo` has not yet passed `hi`: the guard
      `current <= max` of the source's forward loops. */
  predicate Reaches(lo: real, hi: real, s: real, j: nat) {
    lo + j as real * s <= hi
  }

  lemma FloorDivBound(d: real, s: real, j: nat)
    requires d >= 0.0 && s > 0.0
    ensures j <= (d / s).Floor <==> j as real * s <= d
  {
    var q := d / s;
    assert q * s == d;
    if j as real <= q {
      assert j as real * s <= q * s;
    } else {
      assert j as real * s > q * s;
    }
  }

  /** The number of iterations of a sweep loop from `lo` to `hi` with step `s`:
      exactly the steps j for which `lo + j * s <= hi`. */
  function Steps(lo: real, hi: real, s: real): (n: nat)
    requires s > 0.0
    ensures forall j: nat :: j < n <==> Reaches(lo, hi, s, j)
  {
    if lo <= hi then
      var f := ((hi - lo) / s).Floor;
      assert f >= 0 by { FloorDivBound(hi - lo, s, 0); }
      assert forall j: nat :: j < f + 1 <==> Reaches(lo, hi, s, j) by {
        forall j: nat ensures j < f + 1 <==> Reaches(lo, hi, s, j) {
          FloorDivBound(hi - lo, s, j);
        }
      }
      f + 1
    else
      assert forall j: nat :: !Reaches(lo, hi, s, j) by {
        forall j: nat ensures !Reaches(lo, hi, s, j) {
          assert j as real * s >= 0.0;
        }
      }
      0
  }

  /** The coordinate of step j of a sweep: counting up from `lo` when going
      forward, counting down from `hi` otherwise. */
  function Sweep(lo: real, hi: real, s: real, forward: bool, j: nat): real {
    if forward then lo + j as real * s else hi - j as real * s
  }

  /** Every step a sweep loop takes stays between its two bounds. */
  lemma SweepInside(lo: real, hi: real, s: real, forward: bool, j: nat)
    requires s > 0.0 && j < Steps(lo, hi, s)
    ensures lo <= Sweep(lo, hi, s, forward, j) <= hi
  {
    assert Reaches(lo, hi, s, j);
    assert j as real * s >= 0.0;
  }

  /** A forward sweep strictly increases, a backward sweep strictly decreases,
      and neighbouring steps are exactly `s` apart. */
  lemma SweepMonotone(lo: real, hi: real, s: real, forward: bool, i: nat, j: nat)
    requires s > 0.0 && i < j
    ensures forward ==> Sweep(lo, hi, s, forward, i) < Sweep(lo, hi, s, forward, j)
    ensures !forward ==> Sweep(lo, hi, s, forward, i) > Sweep(lo, hi, s, forward, j)
    ensures j == i + 1 ==> Sweep(lo, hi, s, forward, j) - Sweep(lo, hi, s, forward, i) == if forward then s else -s
  {
  }

  /** A sweep over a non-empty interval takes at least one step, and its last
      step lands within one spacing of the far bound: the loop stops only once
      one more step would overshoot. */
  lemma SweepCovers(lo: real, hi: real, s: real, forward: bool)
    requires s > 0.0 && lo <= hi
    ensures Steps(lo, hi, s) >= 1
    ensures Sweep(lo, hi, s, forward, 0) == if forward then lo else hi
    ensures var last := Sweep(lo, hi, s, forward, Steps(lo, hi, s) - 1);
      if forward then hi - s < last <= hi else lo <= last < lo + s
  {
    var n := Steps(lo, hi, s);
    assert Reaches(lo, hi, s, 0);
    assert Reaches(lo, hi, s, n - 1) && !Reaches(lo, hi, s, n);
    assert n as real * s == (n - 1) as real * s + s;
  }

  // ---------------------------------------------------------------------------
  // The primary pass: rows of constant latitude, alternating direction
  // ---------------------------------------------------------------------------

  /** Row k of the primary pass (lines 101-120): latitude `minLat + k * s`,
      even rows run west to east from `minLon`, odd rows east to west from
      `maxLon`. */
  function Row(b: Bounds, s: real, altitude: real, k: nat): seq<SurveyPoint>
    requires s > 0.0
  {
    var n := Steps(b.minLon, b.maxLon, s);
    seq(n, j requires 0 <= j < n =>
      SurveyPoint(Sweep(b.minLat, b.maxLat, s, true, k), Sweep(b.minLon, b.maxLon, s, k % 2 == 0, j), altitude, Photo))
  }

  /** The first k rows, in order. */
  function Rows(b: Bounds, s: real, altitude: real, k: nat): seq<SurveyPoint>
    requires s > 0.0
  {
    if k == 0 then [] else Rows(b, s, altitude, k - 1) + Row(b, s, altitude, k - 1)
  }

  /** Everything the outer `while current_lat <= max_lat` loop emits. */
  function PrimaryPass(b: Bounds, s: real, altitude: real): seq<SurveyPoint>
    requires s > 0.0
  {
    Rows(b, s, altitude, Steps(b.minLat, b.maxLat, s))
  }

  // ---------------------------------------------------------------------------
  // The perpendicular pass: columns of constant longitude, alternating direction
  // ---------------------------------------------------------------------------

  /** Column c of the perpendicular pass (lines 132-151): longitude
      `minLon + c * s`, even columns run south to north from `minLat`, odd
      columns north to south from `maxLat`, all `PerpendicularClimb` higher. */
  function Column(b: Bounds, s: real, altitude: real, c: nat): seq<SurveyPoint>
    requires s > 0.0
  {
    var n := Steps(b.minLat, b.maxLat, s);
    seq(n, j requires 0 <= j < n =>
      SurveyPoint(Sweep(b.minLat, b.maxLat, s, c % 2 == 0, j), Sweep(b.minLon, b.maxLon, s, true, c),
                  altitude + PerpendicularClimb, Photo))
  }

  /** The first c columns, in order. */
  function Columns(b: Bounds, s: real, altitude: real, c: nat): seq<SurveyPoint>
    requires s > 0.0
  {
    if c == 0 then [] else Columns(b, s, altitude, c - 1) + Column(b, s, altitude, c - 1)
  }

  /** Everything the outer `while current_lon <= max_lon` loop emits. */
  function PerpendicularPass(b: Bounds, s: real, altitude: real): seq<SurveyPoint>
    requires s > 0.0
  {
    Columns(b, s, altitude, Steps(b.minLon, b.maxLon, s))
  }

  /** The generated points: the primary pass, followed by the perpendicular
      pass when the enhanced 3D mode is on. */
  function SurveyGrid(b: Bounds, s: real, altitude: real, enhanced3d: bool): seq<SurveyPoint>
    requires s > 0.0
  {
    PrimaryPass(b, s, altitude) + if enhanced3d then PerpendicularPass(b, s, altitude) else []
  }

  /** What `generate_survey_pattern` returns for the given polygon. */
  function SurveyPattern(ws: seq<Waypoint>, altitude: real, enhanced3d: bool): Pattern {
    if |ws| < 3 then Unchanged(ws)
    else Grid(SurveyGrid(BoundingBox(ws), GridSpacing, altitude, enhanced3d))
  }

  // ---------------------------------------------------------------------------
  // The generator, as the source runs it: nested sweep loops appending points
  // ---------------------------------------------------------------------------

  /** Lines 101-120: one row of the primary pass at latitude `currentLat`,
      swept west to east on even rows and east to west on odd rows. */
  method SweepRow(b: Bounds, s: real, altitude: real, row: nat, currentLat: real) returns (line: seq<SurveyPoint>)
    requires s > 0.0 && currentLat == Sweep(b.minLat, b.maxLat, s, true, row)
    ensures line == Row(b, s, altitude, row)
  {
    var rowLength := Steps(b.minLon, b.maxLon, s);
    ghost var full := Row(b, s, altitude, row);
    line := [];
    var j := 0;
    if row % 2 == 0 {
      var currentLon := b.minLon;
      while currentLon <= b.maxLon
        invariant j <= rowLength
        invariant currentLon == Sweep(b.minLon, b.maxLon, s, true, j)
        invariant line == full[..j]
        decreases rowLength - j
      {
        assert Reaches(b.minLon, b.maxLon, s, j);
        assert full[..j + 1] == full[..j] + [SurveyPoint(currentLat, currentLon, altitude, Photo)];
        line := line + [SurveyPoint(currentLat, currentLon, altitude, Photo)];
        j := j + 1;
        currentLon := b.minLon + j as real * s;
      }
      assert !Reaches(b.minLon, b.maxLon, s, j);
    } else {
      var currentLon := b.maxLon;
      while currentLon >= b.minLon
        invariant j <= rowLength
        invariant currentLon == Sweep(b.minLon, b.maxLon, s, false, j)
        invariant line == full[..j]
        decreases rowLength - j
      {
        assert Reaches(b.minLon, b.maxLon, s, j);
        assert full[..j + 1] == full[..j] + [SurveyPoint(currentLat, currentLon, altitude, Photo)];
        line := line + [SurveyPoint(currentLat, currentLon, altitude, Photo)];
        j := j + 1;
        currentLon := b.maxLon - j as real * s;
      }
      assert !Reaches(b.minLon, b.maxLon, s, j);
    }
    assert full[..j] == full;
  }

  /** Lines 97-123: the primary, row-by-row pass. */
  method SweepRows(b: Bounds, s: real, altitude: real) returns (points: seq<SurveyPoint>)
    requires s > 0.0
    ensures points == PrimaryPass(b, s, altitude)
  {
    var rowCount := Steps(b.minLat, b.maxLat, s);
    points := [];
    var row := 0;
    var currentLat := b.minLat;
    while currentLat <= b.maxLat
      invariant row <= rowCount
      invariant currentLat == Sweep(b.minLat, b.maxLat, s, true, row)
      invariant points == Rows(b, s, altitude, row)
      decreases rowCount - row
    {
      assert Reaches(b.minLat, b.maxLat, s, row);
      var line := SweepRow(b, s, altitude, row, currentLat);
      points := points + line;
      row := row + 1;
      currentLat := b.minLat + row as real * s;
    }
    assert !Reaches(b.minLat, b.maxLat, s, row);
  }

  /** Lines 132-151: one column of the perpendicular pass at longitude
      `currentLon`, swept south to north on even columns and north to south on
      odd columns, `PerpendicularClimb` above the given altitude. */
  method SweepColumn(b: Bounds, s: real, altitude: real, col: nat, currentLon: real) returns (line: seq<SurveyPoint>)
    requires s > 0.0 && currentLon == Sweep(b.minLon, b.maxLon, s, true, col)
    ensures line == Column(b, s, altitude, col)
  {
    var colLength := Steps(b.minLat, b.maxLat, s);
    ghost var full := Column(b, s, altitude, col);
    line := [];
    var j := 0;
    if col % 2 == 0 {
      var currentLat := b.minLat;
      while currentLat <= b.maxLat
        invariant j <= colLength
        invariant currentLat == Sweep(b.minLat, b.maxLat, s, true, j)
        invariant line == full[..j]
        decreases colLength - j
      {
        assert Reaches(b.minLat, b.maxLat, s, j);
        assert full[..j + 1] == full[..j] + [SurveyPoint(currentLat, currentLon, altitude + PerpendicularClimb, Photo)];
        line := line + [SurveyPoint(currentLat, currentLon, altitude + PerpendicularClimb, Photo)];
        j := j + 1;
        currentLat := b.minLat + j as real * s;
      }
      assert !Reaches(b.minLat, b.maxLat, s, j);
    } else {
      var currentLat := b.maxLat;
      while currentLat >= b.minLat
        invariant j <= colLength
        invariant currentLat == Sweep(b.minLat, b.maxLat, s, false, j)
        invariant line == full[..j]
        decreases colLength - j
      {
        assert Reaches(b.minLat, b.maxLat, s, j);
        assert full[..j + 1] == full[..j] + [SurveyPoint(currentLat, currentLon, altitude + PerpendicularClimb, Photo)];
        line := line + [SurveyPoint(currentLat, currentLon, altitude + PerpendicularClimb, Photo)];
        j := j + 1;
        currentLat := b.maxLat - j as real * s;
      }
      assert !Reaches(b.minLat, b.maxLat, s, j);
    }
    assert full[..j] == full;
  }

  /** Lines 127-154: the perpendicular, column-by-column pass. */
  method SweepColumns(b: Bounds, s: real, altitude: real) returns (points: seq<SurveyPoint>)
    requires s > 0.0
    ensures points == PerpendicularPass(b, s, altitude)
  {
    var colCount := Steps(b.minLon, b.maxLon, s);
    points := [];
    var col := 0;
    var currentLon := b.minLon;
    while currentLon <= b.maxLon
      invariant col <= colCount
      invariant currentLon == Sweep(b.minLon, b.maxLon, s, true, col)
      invariant points == Columns(b, s, altitude, col)
      decreases colCount - col
    {
      assert Reaches(b.minLon, b.maxLon, s, col);
      var line := SweepColumn(b, s, altitude, col, currentLon);
      points := points + line;
      col := col + 1;
      currentLon := b.minLon + col as real * s;
    }
    assert !Reaches(b.minLon, b.maxLon, s, col);
  }
  /** `generate_survey_pattern` (lines 78-158). */
  method GenerateSurveyPattern(waypoints: seq<Waypoint>, altitude: real, enhanced3d: bool) returns (result: Pattern)
    ensures |waypoints| < 3 ==> result == Unchanged(waypoints)
    ensures |waypoints| >= 3 ==> result.Grid?
    ensures result == SurveyPattern(waypoints, altitude, enhanced3d)
  {
    if |waypoints| < 3 {
      return Unchanged(waypoints);
    }
    var b := BoundingBox(waypoints);
    var surveyPoints := SweepRows(b, GridSpacing, altitude);
    if enhanced3d {
      var perpendicularPoints := SweepColumns(b, GridSpacing, altitude);
      surveyPoints := surveyPoints + perpendicularPoints;
    }
    result := Grid(surveyPoints);
  }

  // ---------------------------------------------------------------------------
  // Properties of the grid
  // ---------------------------------------------------------------------------

  /** A photo point of the primary pass (altitude as given) or of the
      perpendicular pass (altitude raised by `PerpendicularClimb`) inside the box. */
  predicate PhotoInBox(b: Bounds, altitude: real, p: SurveyPoint) {
    InBox(b, p.lat, p.lng) && p.altitude == altitude && p.action == Photo
  }

  /** Shape of one primary row: a single latitude `minLat + k * s`; even rows
      start at `minLon` and increase, odd rows start at `maxLon` and decrease,
      one spacing per step, and the row ends within one spacing of the
      opposite side. Every point is a photo point at the given altitude inside
      the box. */
  lemma RowShape(b: Bounds, s: real, altitude: real, k: nat)
    requires s > 0.0 && WellFormed(b) && k < Steps(b.minLat, b.maxLat, s)
    ensures var row, n := Row(b, s, altitude, k), Steps(b.minLon, b.maxLon, s);
      && |row| == n >= 1
      && (forall j :: 0 <= j < n ==> row[j].lat == b.minLat + k as real * s && PhotoInBox(b, altitude, row[j]))
      && row[0].lng == (if k % 2 == 0 then b.minLon else b.maxLon)
      && (forall i, j :: 0 <= i < j < n ==> if k % 2 == 0 then row[i].lng < row[j].lng else row[i].lng > row[j].lng)
      && (forall j :: 0 <= j < n - 1 ==> row[j + 1].lng - row[j].lng == if k % 2 == 0 then s else -s)
      && (if k % 2 == 0 then b.maxLon - s < row[n - 1].lng else row[n - 1].lng < b.minLon + s)
  {
    var row, n := Row(b, s, altitude, k), Steps(b.minLon, b.maxLon, s);
    var forward := k % 2 == 0;
    SweepCovers(b.minLon, b.maxLon, s, forward);
    SweepInside(b.minLat, b.maxLat, s, true, k);
    forall j | 0 <= j < n ensures PhotoInBox(b, altitude, row[j]) {
      SweepInside(b.minLon, b.maxLon, s, forward, j);
    }
    forall i, j | 0 <= i < j < n
      ensures if forward then row[i].lng < row[j].lng else row[i].lng > row[j].lng
    {
      SweepMonotone(b.minLon, b.maxLon, s, forward, i, j);
    }
    forall j | 0 <= j < n - 1 ensures row[j + 1].lng - row[j].lng == if forward then s else -s {
      SweepMonotone(b.minLon, b.maxLon, s, forward, j, j + 1);
    }
  }

  /** Shape of one perpendicular column: a single longitude `minLon + c * s`;
      even columns start at `minLat` and go north, odd columns start at
      `maxLat` and go south, one spacing per step, ending within one spacing of
      the opposite side. Every point is a photo point `PerpendicularClimb`
      above the given altitude, inside the box. */
  lemma ColumnShape(b: Bounds, s: real, altitude: real, c: nat)
    requires s > 0.0 && WellFormed(b) && c < Steps(b.minLon, b.maxLon, s)
    ensures var col, n := Column(b, s, altitude, c), Steps(b.minLat, b.maxLat, s);
      && |col| == n >= 1
      && (forall j :: 0 <= j < n ==> col[j].lng == b.minLon + c as real * s
                                     && PhotoInBox(b, altitude + PerpendicularClimb, col[j]))
      && col[0].lat == (if c % 2 == 0 then b.minLat else b.maxLat)
      && (forall i, j :: 0 <= i < j < n ==> if c % 2 == 0 then col[i].lat < col[j].lat else col[i].lat > col[j].lat)
      && (forall j :: 0 <= j < n - 1 ==> col[j + 1].lat - col[j].lat == if c % 2 == 0 then s else -s)
      && (if c % 2 == 0 then b.maxLat - s < col[n - 1].lat else col[n - 1].lat < b.minLat + s)
  {
    var col, n := Column(b, s, altitude, c), Steps(b.minLat, b.maxLat, s);
    var forward := c % 2 == 0;
    SweepCovers(b.minLat, b.maxLat, s, forward);
    SweepInside(b.minLon, b.maxLon, s, true, c);
    forall j | 0 <= j < n ensures PhotoInBox(b, altitude + PerpendicularClimb, col[j]) {
      SweepInside(b.minLat, b.maxLat, s, forward, j);
    }
    forall i, j | 0 <= i < j < n
      ensures if forward then col[i].lat < col[j].lat else col[i].lat > col[j].lat
    {
      SweepMonotone(b.minLat, b.maxLat, s, forward, i, j);
    }
    forall j | 0 <= j < n - 1 ensures col[j + 1].lat - col[j].lat == if forward then s else -s {
      SweepMonotone(b.minLat, b.maxLat, s, forward, j, j + 1);
    }
  }

  /** Block arithmetic for laying out k blocks of n points each. */
  lemma BlockBounds(i: nat, k: nat, n: nat)
    requires i < k
    ensures (i + 1) * n == i * n + n && (i + 1) * n <= k * n && k * n == (k - 1) * n + n
  {
  }

  /** The first k rows hold k full rows of points. */
  lemma {:induction false} RowsLength(b: Bounds, s: real, altitude: real, k: nat)
    requires s > 0.0
    ensures |Rows(b, s, altitude, k)| == k * Steps(b.minLon, b.maxLon, s)
  {
    if k > 0 {
      RowsLength(b, s, altitude, k - 1);
      BlockBounds(k - 1, k, Steps(b.minLon, b.maxLon, s));
    }
  }

  /** Later rows only append: the first k rows are a prefix of the first m. */
  lemma {:induction false} RowsPrefix(b: Bounds, s: real, altitude: real, k: nat, m: nat)
    requires s > 0.0 && k <= m
    ensures |Rows(b, s, altitude, k)| <= |Rows(b, s, altitude, m)|
    ensures Rows(b, s, altitude, m)[..|Rows(b, s, altitude, k)|] == Rows(b, s, altitude, k)
  {
    if k < m {
      RowsPrefix(b, s, altitude, k, m - 1);
    }
  }

  /** Row k of the primary pass occupies positions `k * n .. k * n + n`, where
      n is the row length. */
  lemma RowOfPrimaryPass(b: Bounds, s: real, altitude: real, k: nat)
    requires s > 0.0 && k < Steps(b.minLat, b.maxLat, s)
    ensures var pass, n := PrimaryPass(b, s, altitude), Steps(b.minLon, b.maxLon, s);
      k * n + n <= |pass| && pass[k * n..k * n + n] == Row(b, s, altitude, k)
  {
    var pass, rows, n := PrimaryPass(b, s, altitude), Steps(b.minLat, b.maxLat, s), Steps(b.minLon, b.maxLon, s);
    RowsLength(b, s, altitude, k);
    RowsLength(b, s, altitude, rows);
    BlockBounds(k, rows, n);
    RowsPrefix(b, s, altitude, k + 1, rows);
    var upTo := Rows(b, s, altitude, k + 1);
    assert pass[k * n..k * n + n] == upTo[k * n..];
  }

  /** The first c columns hold c full columns. */
  lemma {:induction false} ColumnsLength(b: Bounds, s: real, altitude: real, c: nat)
    requires s > 0.0
    ensures |Columns(b, s, altitude, c)| == c * Steps(b.minLat, b.maxLat, s)
  {
    if c > 0 {
      ColumnsLength(b, s, altitude, c - 1);
      BlockBounds(c - 1, c, Steps(b.minLat, b.maxLat, s));
    }
  }

  /** Later columns only append: the first c columns are a prefix of the first m. */
  lemma {:induction false} ColumnsPrefix(b: Bounds, s: real, altitude: real, c: nat, m: nat)
    requires s > 0.0 && c <= m
    ensures |Columns(b, s, altitude, c)| <= |Columns(b, s, altitude, m)|
    ensures Columns(b, s, altitude, m)[..|Columns(b, s, altitude, c)|] == Columns(b, s, altitude, c)
  {
    if c < m {
      ColumnsPrefix(b, s, altitude, c, m - 1);
    }
  }

  /** Column c of the perpendicular pass occupies positions `c * n .. c * n + n`,
      where n is the column length. */
  lemma ColumnOfPerpendicularPass(b: Bounds, s: real, altitude: real, c: nat)
    requires s > 0.0 && c < Steps(b.minLon, b.maxLon, s)
    ensures var pass, n := PerpendicularPass(b, s, altitude), Steps(b.minLat, b.maxLat, s);
      c * n + n <= |pass| && pass[c * n..c * n + n] == Column(b, s, altitude, c)
  {
    var pass, cols, n := PerpendicularPass(b, s, altitude), Steps(b.minLon, b.maxLon, s), Steps(b.minLat, b.maxLat, s);
    ColumnsLength(b, s, altitude, c);
    ColumnsLength(b, s, altitude, cols);
    BlockBounds(c, cols, n);
    ColumnsPrefix(b, s, altitude, c + 1, cols);
    var upTo := Columns(b, s, altitude, c + 1);
    assert pass[c * n..c * n + n] == upTo[c * n..];
  }

  /** Every point of the first k rows is a photo point at the given altitude
      inside the box. */
  lemma {:induction false} RowsInBox(b: Bounds, s: real, altitude: real, k: nat)
    requires s > 0.0 && WellFormed(b) && k <= Steps(b.minLat, b.maxLat, s)
    ensures forall p :: p in Rows(b, s, altitude, k) ==> PhotoInBox(b, altitude, p)
  {
    if k > 0 {
      RowsInBox(b, s, altitude, k - 1);
      RowShape(b, s, altitude, k - 1);
    }
  }

  /** Every point of the first c columns is a photo point `PerpendicularClimb`
      above the given altitude inside the box. */
  lemma {:induction false} ColumnsInBox(b: Bounds, s: real, altitude: real, c: nat)
    requires s > 0.0 && WellFormed(b) && c <= Steps(b.minLon, b.maxLon, s)
    ensures forall p :: p in Columns(b, s, altitude, c) ==> PhotoInBox(b, altitude + PerpendicularClimb, p)
  {
    if c > 0 {
      ColumnsInBox(b, s, altitude, c - 1);
      ColumnShape(b, s, altitude, c - 1);
    }
  }

  /** Every row of the pass sits in its own block of the pass. */
  lemma RowsTilePrimaryPass(b: Bounds, s: real, altitude: real)
    requires s > 0.0
    ensures var pass, rows, n := PrimaryPass(b, s, altitude), Steps(b.minLat, b.maxLat, s), Steps(b.minLon, b.maxLon, s);
      forall k :: 0 <= k < rows ==> k * n + n <= |pass| && pass[k * n..k * n + n] == Row(b, s, altitude, k)
  {
    var pass, rows, n := PrimaryPass(b, s, altitude), Steps(b.minLat, b.maxLat, s), Steps(b.minLon, b.maxLon, s);
    forall k | 0 <= k < rows ensures k * n + n <= |pass| && pass[k * n..k * n + n] == Row(b, s, altitude, k) {
      RowOfPrimaryPass(b, s, altitude, k);
    }
  }

  /** The primary pass is its rows one after the other: it holds `rows * n`
      points, row k occupying positions `k * n .. k * n + n`, where there are
      `rows` rows of n points each, and there is at least one row of at least
      one point. */
  lemma PrimaryPassRows(b: Bounds, s: real, altitude: real)
    requires s > 0.0 && WellFormed(b)
    ensures var pass, rows, n := PrimaryPass(b, s, altitude), Steps(b.minLat, b.maxLat, s), Steps(b.minLon, b.maxLon, s);
      && rows >= 1 && n >= 1 && |pass| == rows * n
      && forall k :: 0 <= k < rows ==> k * n + n <= |pass| && pass[k * n..k * n + n] == Row(b, s, altitude, k)
  {
    var pass, rows, n := PrimaryPass(b, s, altitude), Steps(b.minLat, b.maxLat, s), Steps(b.minLon, b.maxLon, s);
    assert rows >= 1 && n >= 1 by {
      assert Reaches(b.minLat, b.maxLat, s, 0) && Reaches(b.minLon, b.maxLon, s, 0);
    }
    assert |pass| == rows * n by {
      RowsLength(b, s, altitude, rows);
    }
    RowsTilePrimaryPass(b, s, altitude);
  }

  /** Rows appear in increasing latitude: row k lies at `minLat + k * s`, so the
      first row is at `minLat` and consecutive rows are exactly one spacing
      apart, and the last row lies within one spacing below `maxLat`. */
  lemma RowLatitudes(b: Bounds, s: real, altitude: real)
    requires s > 0.0 && WellFormed(b)
    ensures var rows := Steps(b.minLat, b.maxLat, s);
      && (forall k :: 0 <= k < rows ==> Row(b, s, altitude, k)[0].lat == b.minLat + k as real * s)
      && Row(b, s, altitude, 0)[0].lat == b.minLat
      && (forall k :: 0 < k < rows ==> Row(b, s, altitude, k)[0].lat - Row(b, s, altitude, k - 1)[0].lat == s)
      && b.maxLat - s < Row(b, s, altitude, rows - 1)[0].lat <= b.maxLat
  {
    var rows := Steps(b.minLat, b.maxLat, s);
    SweepCovers(b.minLat, b.maxLat, s, true);
    forall k | 0 <= k < rows ensures Row(b, s, altitude, k)[0].lat == b.minLat + k as real * s {
      RowShape(b, s, altitude, k);
    }
    forall k | 0 < k < rows ensures Row(b, s, altitude, k)[0].lat - Row(b, s, altitude, k - 1)[0].lat == s {
      SweepMonotone(b.minLat, b.maxLat, s, true, k - 1, k);
    }
  }

  /** Every column of the pass sits in its own block of the pass. */
  lemma ColumnsTilePerpendicularPass(b: Bounds, s: real, altitude: real)
    requires s > 0.0
    ensures var pass, cols, n := PerpendicularPass(b, s, altitude), Steps(b.minLon, b.maxLon, s), Steps(b.minLat, b.maxLat, s);
      forall c :: 0 <= c < cols ==> c * n + n <= |pass| && pass[c * n..c * n + n] == Column(b, s, altitude, c)
  {
    var pass, cols, n := PerpendicularPass(b, s, altitude), Steps(b.minLon, b.maxLon, s), Steps(b.minLat, b.maxLat, s);
    forall c | 0 <= c < cols ensures c * n + n <= |pass| && pass[c * n..c * n + n] == Column(b, s, altitude, c) {
      ColumnOfPerpendicularPass(b, s, altitude, c);
    }
  }

  /** The perpendicular pass is its columns one after the other: it holds
      `cols * n` points, column c occupying positions `c * n .. c * n + n`,
      where there are `cols` columns of n points each, and there is at least
      one column of at least one point. */
  lemma PerpendicularPassColumns(b: Bounds, s: real, altitude: real)
    requires s > 0.0 && WellFormed(b)
    ensures var pass, cols, n := PerpendicularPass(b, s, altitude), Steps(b.minLon, b.maxLon, s), Steps(b.minLat, b.maxLat, s);
      && cols >= 1 && n >= 1 && |pass| == cols * n
      && forall c :: 0 <= c < cols ==> c * n + n <= |pass| && pass[c * n..c * n + n] == Column(b, s, altitude, c)
  {
    var pass, cols, n := PerpendicularPass(b, s, altitude), Steps(b.minLon, b.maxLon, s), Steps(b.minLat, b.maxLat, s);
    assert cols >= 1 && n >= 1 by {
      assert Reaches(b.minLat, b.maxLat, s, 0) && Reaches(b.minLon, b.maxLon, s, 0);
    }
    assert |pass| == cols * n by {
      ColumnsLength(b, s, altitude, cols);
    }
    ColumnsTilePerpendicularPass(b, s, altitude);
  }

  /** Columns appear in increasing longitude: column c lies at
      `minLon + c * s`, so the first column is at `minLon` and consecutive
      columns are exactly one spacing apart, and the last column lies within
      one spacing west of `maxLon`. */
  lemma ColumnLongitudes(b: Bounds, s: real, altitude: real)
    requires s > 0.0 && WellFormed(b)
    ensures var cols := Steps(b.minLon, b.maxLon, s);
      && (forall c :: 0 <= c < cols ==> Column(b, s, altitude, c)[0].lng == b.minLon + c as real * s)
      && Column(b, s, altitude, 0)[0].lng == b.minLon
      && (forall c :: 0 < c < cols ==> Column(b, s, altitude, c)[0].lng - Column(b, s, altitude, c - 1)[0].lng == s)
      && b.maxLon - s < Column(b, s, altitude, cols - 1)[0].lng <= b.maxLon
  {
    var cols := Steps(b.minLon, b.maxLon, s);
    SweepCovers(b.minLon, b.maxLon, s, true);
    forall c | 0 <= c < cols ensures Column(b, s, altitude, c)[0].lng == b.minLon + c as real * s {
      ColumnShape(b, s, altitude, c);
    }
    forall c | 0 < c < cols ensures Column(b, s, altitude, c)[0].lng - Column(b, s, altitude, c - 1)[0].lng == s {
      SweepMonotone(b.minLon, b.maxLon, s, true, c - 1, c);
    }
  }

  /** Every point of the primary pass is a photo point at the given altitude
      inside the box, and every point of the perpendicular pass a photo point
      `PerpendicularClimb` higher, inside the box. */
  lemma PassesInBox(b: Bounds, s: real, altitude: real)
    requires s > 0.0 && WellFormed(b)
    ensures forall p :: p in PrimaryPass(b, s, altitude) ==> PhotoInBox(b, altitude, p)
    ensures forall p :: p in PerpendicularPass(b, s, altitude) ==> PhotoInBox(b, altitude + PerpendicularClimb, p)
  {
    RowsInBox(b, s, altitude, Steps(b.minLat, b.maxLat, s));
    ColumnsInBox(b, s, altitude, Steps(b.minLon, b.maxLon, s));
  }

  /** Without enhanced 3D the grid is exactly the primary pass; with it, the
      unchanged primary pass is followed by the perpendicular pass, which holds
      as many points again. Every point of either pass lies in the box. */
  lemma SurveyGridPasses(b: Bounds, s: real, altitude: real, enhanced3d: bool)
    requires s > 0.0 && WellFormed(b)
    ensures var primary, grid := PrimaryPass(b, s, altitude), SurveyGrid(b, s, altitude, enhanced3d);
      && grid[..|primary|] == primary
      && (!enhanced3d ==> grid == primary)
      && (enhanced3d ==> grid[|primary|..] == PerpendicularPass(b, s, altitude) && |grid| == 2 * |primary|)
      && (forall p :: p in grid ==> InBox(b, p.lat, p.lng) && p.action == Photo)
  {
    var rows, n := Steps(b.minLat, b.maxLat, s), Steps(b.minLon, b.maxLon, s);
    RowsLength(b, s, altitude, rows);
    ColumnsLength(b, s, altitude, n);
    PassesInBox(b, s, altitude);
    assert rows * n == n * rows;
  }

  /** For a real polygon every generated point lies between the southern- and
      northernmost and between the western- and easternmost waypoints. */
  lemma PatternWithinWaypoints(ws: seq<Waypoint>, altitude: real, enhanced3d: bool)
    requires |ws| >= 3
    ensures SurveyPattern(ws, altitude, enhanced3d).Grid?
    ensures forall p :: p in SurveyPattern(ws, altitude, enhanced3d).points ==>
      (exists i :: 0 <= i < |ws| && ws[i].lat <= p.lat) && (exists i :: 0 <= i < |ws| && p.lat <= ws[i].lat) &&
      (exists i :: 0 <= i < |ws| && ws[i].lng <= p.lng) && (exists i :: 0 <= i < |ws| && p.lng <= ws[i].lng)
  {
    SurveyGridPasses(BoundingBox(ws), GridSpacing, altitude, enhanced3d);
  }

  /** Odd rows are anchored at `maxLon`, not on the `minLon + j * s` lattice of
      even rows: an odd row retraces the even rows' longitudes, in reverse,
      exactly when the box width is a whole number of spacings. */
  lemma OddRowRetracesEvenRow(b: Bounds, s: real, altitude: real, k: nat)
    requires s > 0.0 && WellFormed(b) && k % 2 == 1
    ensures var n, even, odd := Steps(b.minLon, b.maxLon, s), Row(b, s, altitude, k - 1), Row(b, s, altitude, k);
      (forall j :: 0 <= j < n ==> odd[j].lng == even[n - 1 - j].lng)
      <==> b.minLon + (n - 1) as real * s == b.maxLon
  {
    var n, even, odd := Steps(b.minLon, b.maxLon, s), Row(b, s, altitude, k - 1), Row(b, s, altitude, k);
    SweepCovers(b.minLon, b.maxLon, s, true);
    assert (k - 1) % 2 == 0;
    assert |odd| == |even| == n;
    if b.minLon + (n - 1) as real * s == b.maxLon {
      forall j | 0 <= j < n ensures odd[j].lng == even[n - 1 - j].lng {
        assert odd[j] == SurveyPoint(Sweep(b.minLat, b.maxLat, s, true, k), Sweep(b.minLon, b.maxLon, s, false, j), altitude, Photo);
        assert even[n - 1 - j] == SurveyPoint(Sweep(b.minLat, b.maxLat, s, true, k - 1), Sweep(b.minLon, b.maxLon, s, true, n - 1 - j), altitude, Photo);
        assert (n - 1 - j) as real * s == (n - 1) as real * s - j as real * s;
      }
    } else {
      assert odd[0] == SurveyPoint(Sweep(b.minLat, b.maxLat, s, true, k), Sweep(b.minLon, b.maxLon, s, false, 0), altitude, Photo);
      assert even[n - 1] == SurveyPoint(Sweep(b.minLat, b.maxLat, s, true, k - 1), Sweep(b.minLon, b.maxLon, s, true, n - 1), altitude, Photo);
    }
  }

  // ---------------------------------------------------------------------------
  // Mission summary (lines 186-190)
  // ---------------------------------------------------------------------------

  datatype MissionInfo = MissionInfo(totalWaypoints: nat, estimatedTime: nat, coveragePattern: string)

  /** The number of points the server will fly: the generated points, or the
      original waypoints when no grid was generated. */
  function PointCount(p: Pattern): nat {
    match p
    case Unchanged(ws) => |ws|
    case Grid(points) => |points|
  }

  /** The `mission_info` message: point count, 3 seconds per point, and the
      name of the coverage pattern. */
  function MissionInfoFor(p: Pattern, enhanced3d: bool): (info: MissionInfo)
    ensures info.totalWaypoints == PointCount(p)
    ensures info.estimatedTime == SecondsPerPoint * info.totalWaypoints
  {
    MissionInfo(PointCount(p), SecondsPerPoint * PointCount(p), if enhanced3d then "enhanced_3d" else "standard_grid")
  }

  /** For a real polygon the enhanced 3D mode doubles both the number of points
      and the estimated flight time; for fewer than three waypoints the estimate
      is 3 seconds per original waypoint whatever the mode. */
  lemma EnhancedDoublesEstimate(ws: seq<Waypoint>, altitude: real)
    ensures var standard, enhanced := MissionInfoFor(SurveyPattern(ws, altitude, false), false),
                                      MissionInfoFor(SurveyPattern(ws, altitude, true), true);
      if |ws| >= 3 then
        enhanced.totalWaypoints == 2 * standard.totalWaypoints && enhanced.estimatedTime == 2 * standard.estimatedTime
      else
        standard.estimatedTime == enhanced.estimatedTime == SecondsPerPoint * |ws|
  {
    if |ws| >= 3 {
      SurveyGridPasses(BoundingBox(ws), GridSpacing, altitude, true);
      SurveyGridPasses(BoundingBox(ws), GridSpacing, altitude, false);
    }
  }
}
