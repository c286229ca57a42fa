/** The earthquake record the dashboard receives from the USGS feed
    (`EarthquakeFeature` in src/utils/fetchEarthquakes.ts). */
module Quakes {

  datatype Option<T> = None | Some(value: T)

  /** A GeoJSON position: longitude, latitude and depth in kilometres, in
      that order (section 3.1.1 of RFC 7946). */
  datatype Coordinates = Coordinates(longitude: real, latitude: real, depth: real)
  {
    /** The position as the three-element array the feed carries. */
    function AsArray(): (a: seq<real>)
      ensures |a| == 3 && a[0] == longitude && a[1] == latitude && a[2] == depth
    {
      [longitude, latitude, depth]
    }
  }

  /** One event: its id, magnitude, place label, time in milliseconds since
      the epoch and its position. */
  datatype Quake = Quake(id: string, mag: real, place: string, time: int, coordinates: Coordinates)

  /** `earthquakes.map((e) => e.properties.mag)`. */
  function Magnitudes(qs: seq<Quake>): (ms: seq<real>)
    ensures |ms| == |qs| && forall i :: 0 <= i < |qs| ==> ms[i] == qs[i].mag
  {
    seq(|qs|, i requires 0 <= i < |qs| => qs[i].mag)
  }
}
