/** A value that may be missing: `None` where the component stores `null`
    in its `position` or `error` state. */
module Optional {

  datatype Option<T> = None | Some(value: T)
}

/** Geographic data of the treasure hunt: positions, checkpoints and the
    zone test that compares a distance with a checkpoint's radius. */
module Geo {

  /** A position fix as the component stores it: latitude and longitude in degrees. */
  datatype Position = Position(lat: real, lng: real)

  /** One stop of the hunt: a named target, its coordinates, the radius in
      metres of its zone and the clue shown while it is the current stop. */
  datatype Checkpoint = Checkpoint(name: string, lat: real, lng: real, radius: real, clue: string)

  /** The distance in metres from (lat1, lon1) to (lat2, lon2), in the
      argument order of the component's distance helper. The component computes
      it with the haversine formula in floating point; here it is any function
      supplied by the caller. */
  type Distance = (real, real, real, real) -> real

  /** The user standing at `p` is inside the zone of `c`: the distance to the
      checkpoint is at most its radius, the boundary itself included. */
  predicate Within(distance: Distance, p: Position, c: Checkpoint)
  {
    distance(p.lat, p.lng, c.lat, c.lng) <= c.radius
  }
}
