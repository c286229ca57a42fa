/** The 3D globe (src/components/EarthquakeGlobe.tsx): one point per quake. */
module Globe {
  import opened Quakes
  import opened Severity
  import MapView

  /** A globe point. The formatted local time the source also attaches is
      not modelled. */
  datatype GlobePoint = GlobePoint(lat: real, lng: real, size: real, color: string, place: string, magnitude: real)

  /** The colour name of each severity class on the globe. */
  function ColorName(s: Severity): string {
    match s
    case Red => "red"
    case Orange => "orange"
    case Yellow => "yellow"
    case Green => "green"
  }

  /** The class a globe colour name stands for. */
  function SeverityOfName(name: string): Option<Severity> {
    if name == "red" then Some(Red)
    else if name == "orange" then Some(Orange)
    else if name == "yellow" then Some(Yellow)
    else if name == "green" then Some(Green)
    else None
  }

  /** The point colour: the colour name of the magnitude's severity class. */
  function PointColor(mag: real): (color: string)
    ensures color == ColorName(SeverityOf(mag))
    ensures SeverityOfName(color) == Some(SeverityOf(mag))
  {
    if mag >= 6.0 then "red"
    else if mag >= 4.0 then "orange"
    else if mag >= 2.0 then "yellow"
    else "green"
  }

  /** `Math.max(0.3, mag / 2)`: half the magnitude, never below 0.3. */
  function PointSize(mag: real): (size: real)
    ensures size >= 0.3 && size >= mag / 2.0
    ensures size == 0.3 || size == mag / 2.0
  {
    if 0.3 >= mag / 2.0 then 0.3 else mag / 2.0
  }

  /** The globe and the 2D map put every magnitude in the same class. */
  lemma GlobeAgreesWithMap(mag: real)
    ensures SeverityOfName(PointColor(mag)) == MapView.SeverityOfHex(MapView.GetColor(mag))
  {
  }

  /** The point of one quake: latitude from `coordinates[1]`, longitude from
      `coordinates[0]`, place and magnitude copied through. */
  function PointOf(q: Quake): (p: GlobePoint)
    ensures p.lat == q.coordinates.latitude && p.lng == q.coordinates.longitude
    ensures p.place == q.place && p.magnitude == q.mag
    ensures p.size == PointSize(q.mag) && p.size >= 0.3 && p.size >= q.mag / 2.0
    ensures SeverityOfName(p.color) == Some(SeverityOf(q.mag))
  {
    var position := q.coordinates.AsArray();
    GlobePoint(position[1], position[0], PointSize(q.mag), PointColor(q.mag), q.place, q.mag)
  }

  /** `earthquakes.map(...)`: one point per quake, in the same order. */
  function GlobePoints(qs: seq<Quake>): (points: seq<GlobePoint>)
    ensures |points| == |qs|
    ensures forall i :: 0 <= i < |qs| ==> points[i] == PointOf(qs[i])
  {
    seq(|qs|, i requires 0 <= i < |qs| => PointOf(qs[i]))
  }
}
