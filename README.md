# Survey grid and mission builder

This project models two parts of the drone-survey backend in Dafny and proves properties about them.

- **The survey-grid generator** of the simulation server, `generate_survey_pattern`. It takes the polygon's waypoints and computes their latitude/longitude bounding box. It then covers the box with a boustrophedon ("lawnmower") pass of photo points, 0.0001° apart. Even rows run west to east and odd rows east to west. In enhanced 3D mode it appends a second, column-wise pass 10 m higher. The `mission_info` summary derived from the result (3 seconds per point) is modelled with it.
- **The mission uploader** `run_mission`. It clears the vehicle's command list and then adds a takeoff command, one waypoint command per flight-plan point, and a return-to-launch command. All of them use the MAVLink frame `MAV_FRAME_GLOBAL_RELATIVE_ALT` (3), and the command ids are `MAV_CMD_NAV_TAKEOFF` (22), `MAV_CMD_NAV_WAYPOINT` (16) and `MAV_CMD_NAV_RETURN_TO_LAUNCH` (20) of the MAVLink common message set. The altitude is given in feet, defaults to 30 ft, and is converted to metres. The script's two angle normalisations are modelled too: the heading normalisation "add 360 when negative" applied to the telemetry heading, and the bearing normalisation `(b + 360) % 360` at the end of `get_bearing`. The script defines `get_bearing` but never calls it.

Files:

- `geo.dfy` (module `Geo`): the waypoint value shared by both.
- `survey.dfy` (module `Survey`):
  - the bounding box;
  - the specification functions `PrimaryPass`, `PerpendicularPass`, `SurveyGrid` and `SurveyPattern`;
  - the generator as the source runs it (`SweepRows`, `SweepColumns` and `GenerateSurveyPattern`: `while` loops that append points, with each row's and each column's inner loop in `SweepRow` and `SweepColumn`), proved equal to those functions;
  - the grid's properties;
  - the mission summary.
- `mission.dfy` (module `Mission`):
  - the `Command` datatype;
  - the vehicle's command list as a class updated in place (`VehicleCommands`), filled by `BuildMission`, which is proved to produce `MissionPlan`;
  - the mission's layout and round trip;
  - the angle normalisations.

Coordinates are exact reals. The source advances `current_lat`/`current_lon` by adding the spacing to a float over and over. The model writes step k directly as `lo + k * spacing`, the value the float sum approximates. The source's loop guards (`current <= max`, `current >= min`) are kept. Termination rests on an integer step counter bounded by `Survey.Steps`.

Two behaviours of the code that the model follows:

- The grid covers the whole bounding box; it is not clipped to the polygon. For a non-rectangular polygon the code therefore also emits points outside the polygon but inside its box.
- With fewer than three vertices no grid is generated: the code returns the input waypoint list itself (`Survey.Pattern.Unchanged`).

## Model

| member | source | states |
|---|---|---|
| Survey.Min | backend/simulation_server.py:90-91 | `min` of a non-empty list is a lower bound of every element and equals one of them |
| Survey.Max | backend/simulation_server.py:90-91 | `max` of a non-empty list is an upper bound of every element and equals one of them |
| Survey.BoundingBox | backend/simulation_server.py:86-91 | the box is well formed, contains every waypoint, and each of its four sides equals the latitude or longitude of some waypoint |
| Survey.Steps | backend/simulation_server.py:100-122 | a sweep loop from `lo` with step `s` runs exactly for the steps j with `lo + j*s <= hi` |
| Survey.SweepInside | backend/simulation_server.py:100-122 | every step of a sweep loop, in either direction, stays between the two bounds |
| Survey.SweepMonotone | backend/simulation_server.py:110-120 | forward sweeps strictly increase, backward sweeps strictly decrease, neighbouring steps are exactly one spacing apart |
| Survey.SweepCovers | backend/simulation_server.py:100-122 | a sweep over a non-empty interval runs at least once, starts at its near bound and stops within one spacing of the far bound |
| Survey.SweepRow | backend/simulation_server.py:101-120 | the inner loop for row k, west to east on even rows and east to west on odd rows, emits exactly `Row(k)` |
| Survey.SweepColumn | backend/simulation_server.py:132-151 | the inner loop for column c, south to north on even columns and north to south on odd columns, emits exactly `Column(c)` |
| Survey.SweepRows | backend/simulation_server.py:97-123 | the row-by-row nested loops emit exactly the primary pass `PrimaryPass` |
| Survey.SweepColumns | backend/simulation_server.py:127-154 | the column-by-column nested loops emit exactly the perpendicular pass `PerpendicularPass` |
| Survey.GenerateSurveyPattern | backend/simulation_server.py:78-158 | fewer than 3 waypoints: the input list is returned unchanged; otherwise a grid is generated, and the result equals `SurveyPattern` |
| Survey.RowShape | backend/simulation_server.py:101-120 | a primary row has at least one point, all at latitude `minLat + k*s`, all photo points at the given altitude inside the box; even rows start at `minLon` and strictly increase, odd rows start at `maxLon` and strictly decrease, one spacing per step, ending within one spacing of the opposite side |
| Survey.ColumnShape | backend/simulation_server.py:131-151 | a perpendicular column has at least one point, all at longitude `minLon + c*s`, all photo points at altitude + 10 inside the box; even columns start at `minLat` going north, odd columns start at `maxLat` going south, one spacing per step, ending within one spacing of the opposite side |
| Survey.RowsLength | backend/simulation_server.py:100-123 | the first k rows hold k times the row length |
| Survey.RowsPrefix | backend/simulation_server.py:100-123 | later rows only append: the first k rows are a prefix of the first m |
| Survey.RowOfPrimaryPass | backend/simulation_server.py:100-123 | row k sits at positions `k*n .. k*n+n` of the primary pass |
| Survey.ColumnsLength | backend/simulation_server.py:131-154 | the first c columns hold c times the column length |
| Survey.ColumnsPrefix | backend/simulation_server.py:131-154 | later columns only append: the first c columns are a prefix of the first m |
| Survey.ColumnOfPerpendicularPass | backend/simulation_server.py:131-154 | column c sits at positions `c*n .. c*n+n` of the perpendicular pass |
| Survey.RowsInBox | backend/simulation_server.py:100-123 | every point of the first k rows is a photo point at the given altitude inside the box |
| Survey.ColumnsInBox | backend/simulation_server.py:131-154 | every point of the first c columns is a photo point at altitude + 10 inside the box |
| Survey.PrimaryPassRows | backend/simulation_server.py:97-123 | the primary pass has at least one row of at least one point, holds rows × row-length points, and is its rows in order |
| Survey.RowLatitudes | backend/simulation_server.py:97-123 | rows appear in increasing latitude: the first at `minLat`, consecutive rows exactly one spacing apart, the last within one spacing below `maxLat` |
| Survey.PerpendicularPassColumns | backend/simulation_server.py:127-154 | the perpendicular pass has at least one column of at least one point, holds columns × column-length points, and is its columns in order |
| Survey.ColumnLongitudes | backend/simulation_server.py:127-154 | columns appear in increasing longitude: the first at `minLon`, consecutive columns exactly one spacing apart, the last within one spacing west of `maxLon` |
| Survey.PassesInBox | backend/simulation_server.py:100-151 | every point of both passes lies inside the bounding box and is a photo point; the primary pass is at the given altitude, the perpendicular pass at altitude + 10 |
| Survey.SurveyGridPasses | backend/simulation_server.py:125-158 | without enhanced 3D the result is exactly the primary pass; with it, the unchanged primary pass is followed by the perpendicular pass and the result is twice as long; every point is an in-box photo point |
| Survey.PatternWithinWaypoints | backend/simulation_server.py:80-158 | for 3 or more waypoints a grid is generated, and every point lies between the extreme latitudes and longitudes of actual waypoints |
| Survey.OddRowRetracesEvenRow | backend/simulation_server.py:101-120 | an odd row visits the previous even row's longitudes in reverse if and only if the box width is a whole number of spacings |
| Survey.MissionInfoFor | backend/simulation_server.py:184-190 | the reported point count is the length of the generated list and the estimated time is 3 seconds per point |
| Survey.EnhancedDoublesEstimate | backend/simulation_server.py:184-190 | for a polygon, enhanced 3D doubles both the point count and the estimated time; for fewer than 3 waypoints both modes report 3 seconds per original waypoint |
| Mission.TakeoffAltitude | backend/scripts/drone_mission.py:29-45 | the altitude in metres is the given altitude in feet, or 30 ft when absent (9.144 m), times 0.3048; non-negative feet give non-negative metres |
| Mission.MissionLayout | backend/scripts/drone_mission.py:45-55 | the mission has exactly waypoints + 2 commands: first (and only first) a takeoff to the takeoff altitude, then waypoint i as command i + 1 with its latitude, its longitude and the takeoff altitude, last (and only last) return-to-launch; every command uses frame 3 |
| Mission.WaypointCommandsVisit | backend/scripts/drone_mission.py:50-52 | the waypoint commands built for a flight plan read back as that flight plan |
| Mission.MissionVisitsFlightPlan | backend/scripts/drone_mission.py:47-55 | the positions of the waypoint commands of the uploaded mission are exactly the input points, in input order |
| Mission.VehicleCommands.constructor | backend/scripts/drone_mission.py:40-42 | the command list holds whatever mission was downloaded from the vehicle |
| Mission.VehicleCommands.Clear | backend/scripts/drone_mission.py:43 | clearing leaves the command list empty |
| Mission.VehicleCommands.Add | backend/scripts/drone_mission.py:48-55 | adding appends the command at the end and changes nothing else |
| Mission.BuildMission | backend/scripts/drone_mission.py:40-55 | after building, the vehicle's command list is exactly `MissionPlan` for the converted altitude and the waypoints, whatever it held before |
| Mission.Mod360 | backend/scripts/drone_mission.py:18 | on reals, the floored remainder that Python's `% 360` defines lies in [0, 360) and keeps values already there |
| Mission.NormalizeBearing | backend/scripts/drone_mission.py:18 | on reals, the normalised bearing always lies in [0, 360) |
| Mission.NormalizeBearingRange | backend/scripts/drone_mission.py:17-18 | on [-360, 360), and so on all of `atan2`'s range in degrees, a negative bearing gains 360 and a non-negative one is kept |
| Mission.NormalizeBearingPeriodic | backend/scripts/drone_mission.py:18 | adding a full turn to the input does not change the result, and normalising twice equals normalising once |
| Mission.NormalizeHeading | backend/scripts/drone_mission.py:79-81 | on reals, a heading in [-360, 360), which covers the yaw's [-180, 180], is mapped into [0, 360); a non-negative heading is kept |
| Mission.HeadingAgreesWithBearing | backend/scripts/drone_mission.py:79-81 | on [-360, 360) the heading normalisation and the bearing normalisation give the same result |

## Left out

- Floating-point accumulation: with floats, `current += grid_spacing` drifts. A loop can then run one step more or less than `Steps`, and the points differ from `lo + k*s` by rounding. The model uses exact reals, so every length fact and every position fact of the `Survey` module holds only on reals. In doubles, a forward and a backward inner loop over the same interval can differ by one point. Then every odd row (or column) is off by one, and a pass can be off by up to about half its number of rows (or columns). Worked as IEEE-754 sums for a box with latitudes [0, 0.001] and longitudes [0, 0.0022]:
  - ten additions of 1e-4 from 0 give 0.0010000000000000002 > 0.001, so there are 10 rows;
  - the longitude sweep takes 23 steps forward from 0 but 22 steps backward from 0.0022;
  - the primary pass then has 5·23 + 5·22 = 225 points, and the perpendicular pass (23 columns of 10) has 230;
  - the enhanced count is 455, where double the standard count is 450;
  - the model gives 11 × 23 = 253 for both passes.

  The lines below name the members concerned: first those whose length facts need equal rows or columns, then those whose iteration count or positions hold only on reals.
- Survey.RowShape: every row has the same length `Steps`; in doubles a forward and a backward row can differ by one point.
- Survey.ColumnShape: every column has the same length `Steps`; in doubles a northward and a southward column can differ by one point.
- Survey.RowsLength: the first k rows hold exactly k × row-length points, which needs equal row lengths.
- Survey.ColumnsLength: the first c columns hold exactly c × column-length points, which needs equal column lengths.
- Survey.RowOfPrimaryPass: row k sits at positions `k*n .. k*n+n`, which needs every earlier row to have length n.
- Survey.ColumnOfPerpendicularPass: column c sits at positions `c*n .. c*n+n`, which needs every earlier column to have length n.
- Survey.PrimaryPassRows: the pass holds exactly rows × row-length points, which needs equal row lengths.
- Survey.PerpendicularPassColumns: the pass holds exactly columns × column-length points, which needs equal column lengths.
- Survey.SurveyGridPasses: `|grid| == 2 * |primary|`; in doubles the two passes can differ by up to about half the number of rows or columns (225 against 230 in the example above).
- Survey.EnhancedDoublesEstimate: enhanced 3D exactly doubles the point count and the estimated time; in doubles the enhanced count can differ from double the standard count by up to about half the number of rows or columns (455 against 450 points in the example above).
- Survey.Steps: the iteration count is exact only on reals; in doubles the accumulated `current` can pass `hi` one step early or late, so a loop can run one step fewer or more.
- Survey.SweepMonotone: neighbouring steps are exactly one spacing apart only on reals; in doubles each `+=`/`-=` rounds, so the gaps differ from the spacing by rounding error.
- Survey.RowLatitudes: consecutive rows exactly one spacing apart, and row k at exactly `minLat + k*s`, hold only on reals; in doubles the row latitudes carry the rounding of the accumulated sum.
- Survey.ColumnLongitudes: consecutive columns exactly one spacing apart, and column c at exactly `minLon + c*s`, hold only on reals; in doubles the column longitudes carry the rounding of the accumulated sum.
- Survey.OddRowRetracesEvenRow: the if-and-only-if holds only on reals. In doubles, with longitudes [0, 0.0003], `0.0002 + 0.0001` exceeds `0.0003`, so an even row emits three points (0, 1e-4, 2e-4) while the odd row emits 0.0003, about 2e-4 and about 1e-4: the width is three spacings, yet the odd row retraces none of the even row's longitudes exactly.
- Mission.NormalizeHeading: the model adds 360 exactly. In doubles, `heading += 360` rounds up to exactly 360.0 for any heading in about (-2.8e-14, 0), so the program's result can be 360.0, outside [0, 360).
- Mission.Mod360: the model takes the exact floored remainder. Python's float `%` adds the divisor to a negative `fmod` result, and that sum can round up to 360.0 (for example, `-1e-14 % 360`). At line 18 this cannot happen, because `bearing + 360` lies in [180, 540].
- `calculate_distance` (haversine), the trigonometric body of `get_bearing`, and the conversion of the yaw from radians to degrees: these are transcendental floating-point functions. Only the normalisation steps after them are modelled, on a real-valued input.
- The asynchronous websocket server, telemetry streaming and `execute_mission_async`'s vehicle control (connect, arm, takeoff, goto, mode changes, sleep polling): I/O, concurrency and calls into the autopilot library.
- In `run_mission`: argument parsing, JSON decoding, `connect`, `cmds.download()`/`wait_ready()` (modelled as the constructor's downloaded list), `cmds.upload()`, arming, mode changes and the telemetry loop. These are foreign autopilot calls and I/O.
- Mission.TakeoffAltitude: takes the altitude as an optional real. Python's `float()` parsing of a string or integer altitude, and its failure, are not modelled.
- Mission.BuildMission: takes the waypoints as a sequence. The `waypoints` default of an empty list is the sequence `[]`. A waypoint without `lat` or `lng` (a `KeyError` in the source) does not arise, because `Waypoint` always has both. The same holds for the survey generator, which raises that `KeyError` at backend/simulation_server.py:87-88 for three or more waypoints: `Survey.GenerateSurveyPattern` takes `Geo.Waypoint` values, so it does not model that error.
- Mission.Command: keeps only frame, command id, latitude, longitude and altitude. The source passes 0 for every other parameter of the dronekit `Command`.
- Survey.GenerateSurveyPattern: returns the input as a value. The source returns the same list object, so a caller that mutates it would change the input too. That aliasing is not modelled.
- The waypoint-progress percentages and telemetry unit conversions of the simulation server: float display values.
- The `MissionState` holder and the `patch_dronekit.py` compatibility patch: no behaviour.
