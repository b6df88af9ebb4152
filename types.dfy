/** Shapes shared by the catalog, the map helpers and the search controller
    (src/types/index.ts). Coordinates are exact reals: floating point rounding
    is not part of this model. */
module Types {

  /** A value that may be absent, standing for TypeScript's `T | null`. */
  datatype Option<+T> = None | Some(value: T)

  /** A point in degrees, the `coordinates` record of a Location and the
      `[lat, lng]` pairs the map is given. */
  datatype Coord = Coord(lat: real, lng: real)

  /** One site of the catalog. */
  datatype Location = Location(name: string, address: string, coordinates: Coord)

  /** The result shown after a successful search. The source keeps the
      distance and the travel time as formatted strings; here they are kept as
      the numbers those strings are made from. */
  datatype RouteInfo = RouteInfo(location: Location, distanceKm: real, durationMinutes: int)

  /** A map view: its center and its zoom level. */
  datatype Viewport = Viewport(center: Coord, zoom: int)

  /** A latitude in [-90, 90] and a longitude in [-180, 180]. */
  predicate ValidCoord(c: Coord) {
    -90.0 <= c.lat <= 90.0 && -180.0 <= c.lng <= 180.0
  }
}
