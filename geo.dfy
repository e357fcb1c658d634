/** Geographic values shared by the survey planner and the mission uploader. */
module Geo {

  /** One vertex of the survey polygon (or one flight-plan point) as the client
      sends it: a latitude and a longitude in degrees. */
  datatype Waypoint = Waypoint(lat: real, lng: real)
}
