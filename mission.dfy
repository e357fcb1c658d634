/** The mission uploader script (`run_mission`): the MAVLink mission it builds
    from a flight plan, and the script's two angle normalisations (the heading
    of its telemetry loop, and the last step of `get_bearing`, which the script
    defines but never calls). Connecting to
    the vehicle, arming, mode changes and the telemetry loop are calls into the
    autopilot library and are not part of this model. */
module Mission {
  import opened Geo

  datatype Option<T> = None | Some(value: T)

  /** A mission item as the script passes it to the autopilot library: its
      coordinate frame, its MAVLink command id and its x (latitude), y
      (longitude) and z (altitude) parameters. Every other parameter the script
      passes is 0. */
  datatype Command = Command(frame: int, cmd: int, lat: real, lng: real, alt: real)

  /** MAV_FRAME_GLOBAL_RELATIVE_ALT of the MAVLink common message set. */
  const FrameGlobalRelativeAlt: int := 3
  /** MAV_CMD_NAV_WAYPOINT. */
  const NavWaypoint: int := 16
  /** MAV_CMD_NAV_RETURN_TO_LAUNCH. */
  const NavReturnToLaunch: int := 20
  /** MAV_CMD_NAV_TAKEOFF. */
  const NavTakeoff: int := 22

  /** Altitude used when the mission data does not give one, in feet. */
  const DefaultAltitudeFeet: real := 30.0
  const MetersPerFoot: real := 0.3048

  // ---------------------------------------------------------------------------
  // Altitude
  // ---------------------------------------------------------------------------

  /** `mission_data.get("altitude", 30)`. */
  function AltitudeFeet(altitude: Option<real>): real {
    match altitude
    case Some(feet) => feet
    case None => DefaultAltitudeFeet
  }

  /** The takeoff (and cruise) altitude in metres: the requested altitude, or
      30 ft when none is given, converted from feet. */
  function TakeoffAltitude(altitude: Option<real>): (meters: real)
    ensures altitude == None ==> meters == 9.144
    ensures meters / MetersPerFoot == AltitudeFeet(altitude)
    ensures AltitudeFeet(altitude) >= 0.0 ==> meters >= 0.0
  {
    AltitudeFeet(altitude) * MetersPerFoot
  }

  // ---------------------------------------------------------------------------
  // The mission
  // ---------------------------------------------------------------------------

  function TakeoffCommand(alt: real): Command {
    Command(FrameGlobalRelativeAlt, NavTakeoff, 0.0, 0.0, alt)
  }

  function WaypointCommand(w: Waypoint, alt: real): Command {
    Command(FrameGlobalRelativeAlt, NavWaypoint, w.lat, w.lng, alt)
  }

  const ReturnToLaunchCommand: Command := Command(FrameGlobalRelativeAlt, NavReturnToLaunch, 0.0, 0.0, 0.0)

  /** One waypoint command per flight-plan point, in order. */
  function WaypointCommands(ws: seq<Waypoint>, alt: real): seq<Command> {
    seq(|ws|, i requires 0 <= i < |ws| => WaypointCommand(ws[i], alt))
  }

  /** The mission the script uploads (lines 48-55): takeoff, the waypoints,
      return to launch. */
  function MissionPlan(alt: real, ws: seq<Waypoint>): seq<Command> {
    [TakeoffCommand(alt)] + WaypointCommands(ws, alt) + [ReturnToLaunchCommand]
  }

  /** The layout of the uploaded mission: exactly two more commands than
      waypoints; the first, and only the first, is a takeoff to the given
      altitude; the last, and only the last, is return-to-launch; in between,
      waypoint i of the plan becomes command i + 1, a waypoint command with its
      latitude, its longitude and the takeoff altitude; every command uses the
      global frame with altitudes relative to home. */
  lemma MissionLayout(alt: real, ws: seq<Waypoint>)
    ensures var m := MissionPlan(alt, ws);
      && |m| == |ws| + 2
      && m[0].cmd == NavTakeoff && m[0].alt == alt
      && m[|m| - 1].cmd == NavReturnToLaunch
      && (forall i :: 0 <= i < |ws| ==>
            m[i + 1].cmd == NavWaypoint && m[i + 1].lat == ws[i].lat && m[i + 1].lng == ws[i].lng && m[i + 1].alt == alt)
      && (forall i :: 0 <= i < |m| ==> m[i].frame == FrameGlobalRelativeAlt)
      && (forall i :: 0 <= i < |m| ==> (m[i].cmd == NavTakeoff <==> i == 0))
      && (forall i :: 0 <= i < |m| ==> (m[i].cmd == NavReturnToLaunch <==> i == |m| - 1))
  {
  }

  /** The flight-plan points a mission visits: the positions of its waypoint
      commands, in order. */
  function MissionWaypoints(cmds: seq<Command>): seq<Waypoint> {
    if cmds == [] then [] else Visited(cmds[0]) + MissionWaypoints(cmds[1..])
  }

  /** The position a single command flies to as a flight-plan point, if it is a
      waypoint command. */
  function Visited(c: Command): seq<Waypoint> {
    if c.cmd == NavWaypoint then [Waypoint(c.lat, c.lng)] else []
  }

  lemma {:induction false} MissionWaypointsAppend(a: seq<Command>, b: seq<Command>)
    ensures MissionWaypoints(a + b) == MissionWaypoints(a) + MissionWaypoints(b)
  {
    if a == [] {
      assert a + b == b;
    } else {
      var ab := a + b;
      assert ab[0] == a[0] && ab[1..] == a[1..] + b;
      assert MissionWaypoints(ab) == Visited(a[0]) + MissionWaypoints(a[1..] + b);
      MissionWaypointsAppend(a[1..], b);
      assert MissionWaypoints(a) == Visited(a[0]) + MissionWaypoints(a[1..]);
    }
  }

  lemma {:induction false} WaypointCommandsVisit(ws: seq<Waypoint>, alt: real)
    ensures MissionWaypoints(WaypointCommands(ws, alt)) == ws
  {
    if ws != [] {
      assert WaypointCommands(ws, alt)[1..] == WaypointCommands(ws[1..], alt);
      WaypointCommandsVisit(ws[1..], alt);
    }
  }

  /** The uploaded mission visits exactly the flight plan, in order: reading the
      waypoint commands back out of it gives the input points. */
  lemma MissionVisitsFlightPlan(alt: real, ws: seq<Waypoint>)
    ensures MissionWaypoints(MissionPlan(alt, ws)) == ws
  {
    MissionWaypointsAppend([TakeoffCommand(alt)] + WaypointCommands(ws, alt), [ReturnToLaunchCommand]);
    MissionWaypointsAppend([TakeoffCommand(alt)], WaypointCommands(ws, alt));
    WaypointCommandsVisit(ws, alt);
    assert MissionWaypoints([ReturnToLaunchCommand]) == [];
    assert MissionWaypoints([TakeoffCommand(alt)]) == [];
  }

  // ---------------------------------------------------------------------------
  // The vehicle's command list, updated in place
  // ---------------------------------------------------------------------------

  /** `vehicle.commands`: the mission held by the autopilot, as downloaded. */
  class VehicleCommands {
    var commands: seq<Command>

    /** `cmds.download(); cmds.wait_ready()`: whatever mission the vehicle
        already held. */
    constructor (downloaded: seq<Command>)
      ensures commands == downloaded
    {
      commands := downloaded;
    }

    /** `cmds.clear()`. */
    method Clear()
      modifies this
      ensures commands == []
    {
      commands := [];
    }

    /** `cmds.add(command)`. */
    method Add(c: Command)
      modifies this
      ensures commands == old(commands) + [c]
    {
      commands := commands + [c];
    }
  }

  /** Lines 40-55: clear the downloaded mission and add takeoff, one waypoint
      per flight-plan point, and return to launch. Nothing previously held by
      the vehicle survives. */
  method BuildMission(cmds: VehicleCommands, altitude: Option<real>, waypoints: seq<Waypoint>)
    modifies cmds
    ensures cmds.commands == MissionPlan(TakeoffAltitude(altitude), waypoints)
  {
    cmds.Clear();
    var takeoffAltMeters := TakeoffAltitude(altitude);
    cmds.Add(TakeoffCommand(takeoffAltMeters));
    for i := 0 to |waypoints|
      invariant cmds.commands == [TakeoffCommand(takeoffAltMeters)] + WaypointCommands(waypoints[..i], takeoffAltMeters)
    {
      var point := waypoints[i];
      assert WaypointCommands(waypoints[..i + 1], takeoffAltMeters)
          == WaypointCommands(waypoints[..i], takeoffAltMeters) + [WaypointCommand(point, takeoffAltMeters)];
      cmds.Add(WaypointCommand(point, takeoffAltMeters));
    }
    assert waypoints[..|waypoints|] == waypoints;
    cmds.Add(ReturnToLaunchCommand);
  }

  // ---------------------------------------------------------------------------
  // Angle normalisation
  // ---------------------------------------------------------------------------

  /** Python's `x % 360` on reals: the remainder of floor division by 360,
      which, like the divisor, is never negative. */
  function Mod360(x: real): (r: real)
    ensures 0.0 <= r < 360.0
    ensures 0.0 <= x < 360.0 ==> r == x
  {
    x - (x / 360.0).Floor as real * 360.0
  }

  /** The last step of `get_bearing` (line 18): `(bearing + 360) % 360`. */
  function NormalizeBearing(bearing: real): (r: real)
    ensures 0.0 <= r < 360.0
  {
    Mod360(bearing + 360.0)
  }

  /** A bearing already in [0, 360) is kept, and one in [-360, 0) (which covers
      `atan2`'s range in degrees) is turned a full circle up. */
  lemma NormalizeBearingRange(bearing: real)
    requires -360.0 <= bearing < 360.0
    ensures NormalizeBearing(bearing) == if bearing < 0.0 then bearing + 360.0 else bearing
  {
  }

  /** Normalisation only removes whole turns: shifting the input by a full
      circle does not change the result, so normalising twice is normalising
      once. */
  lemma NormalizeBearingPeriodic(bearing: real)
    ensures NormalizeBearing(bearing + 360.0) == NormalizeBearing(bearing)
    ensures NormalizeBearing(NormalizeBearing(bearing)) == NormalizeBearing(bearing)
  {
  }

  /** Lines 79-81: a heading derived from the yaw, turned a full circle up when
      negative. */
  function NormalizeHeading(heading: real): (r: real)
    ensures -360.0 <= heading < 360.0 ==> 0.0 <= r < 360.0
    ensures heading >= 0.0 ==> r == heading
  {
    if heading < 0.0 then heading + 360.0 else heading
  }

  /** On every heading the autopilot's yaw can give (and further, on all of
      [-360, 360)) the heading normalisation agrees with the bearing
      normalisation. */
  lemma HeadingAgreesWithBearing(heading: real)
    requires -360.0 <= heading < 360.0
    ensures NormalizeHeading(heading) == NormalizeBearing(heading)
  {
  }
}
