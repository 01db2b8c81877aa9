/** Geographic and screen coordinates, and the two Leaflet calls the layers lean on. */
module Geo {

  /** A position as Leaflet's `L.latLng(lat, lng)` holds it. */
  datatype LatLng = LatLng(lat: real, lng: real)

  /** A pair of numbers `[x, y]`: `[lng, lat]` before projection, layer pixels after. */
  datatype Point = Point(x: real, y: real)

  /** The bounds arrays of the layers: `[[min x, min y], [max x, max y]]`. */
  datatype Box = Box(min: Point, max: Point)

  /** A data element shaped as the default accessors expect: the array `[d[0], d[1]]`. */
  datatype Pair = Pair(first: real, second: real)

  /** A data element shaped as the first hexbin layers expect: `{geo: [lng, lat]}`. */
  datatype Located = Located(geo: Pair)

  /** The default `lng` accessor, `function(d) { return d[0]; }`. */
  function DefaultLng(d: Pair): real { d.first }

  /** The default `lat` accessor, `function(d) { return d[1]; }`. */
  function DefaultLat(d: Pair): real { d.second }

  /** The all-zero bounds returned for missing or empty data. */
  const ZeroBox := Box(Point(0.0, 0.0), Point(0.0, 0.0))

  predicate Encloses(b: Box, p: Point)
  {
    b.min.x <= p.x <= b.max.x && b.min.y <= p.y <= b.max.y
  }

  /** `Math.min` on numbers (NaN is not modelled). */
  function Min(a: real, b: real): real { if a <= b then a else b }

  /** `Math.max` on numbers (NaN is not modelled). */
  function Max(a: real, b: real): real { if a <= b then b else a }

  /**
   * `_project(coord)`: the layers keep coordinates as `[lng, lat]`, while the
   * map's `latLngToLayerPoint` (passed in as `toLayer`) takes `[lat, lng]`.
   */
  function Project(coord: Point, toLayer: LatLng -> Point): Point
  {
    toLayer(LatLng(coord.y, coord.x))
  }

  /** `L.bounds(a, b)`: the smallest box holding both corner points. */
  function BoundsOf(a: Point, b: Point): (r: Box)
    ensures Encloses(r, a) && Encloses(r, b)
    ensures forall c: Box :: Encloses(c, a) && Encloses(c, b) ==>
              c.min.x <= r.min.x && c.min.y <= r.min.y && r.max.x <= c.max.x && r.max.y <= c.max.y
  {
    Box(Point(Min(a.x, b.x), Min(a.y, b.y)), Point(Max(a.x, b.x), Max(a.y, b.y)))
  }

  /**
   * A projection to layer pixels as a Web-Mercator map has it: x grows with
   * the longitude, y grows towards the south (as the latitude falls).
   */
  ghost predicate ScreenMonotone(toLayer: LatLng -> Point)
  {
    && (forall a: LatLng, b: LatLng :: a.lng <= b.lng ==> toLayer(a).x <= toLayer(b).x)
    && (forall a: LatLng, b: LatLng :: a.lat <= b.lat ==> toLayer(b).y <= toLayer(a).y)
  }

  /**
   * `L.latLng(lat(d), lng(d))` for every datum: the positions a layer reports
   * through its configured accessors.
   */
  function LatLngsOf<D>(data: seq<D>, lat: D -> real, lng: D -> real): (r: seq<LatLng>)
    ensures |r| == |data|
    ensures forall i | 0 <= i < |data| :: r[i].lat == lat(data[i]) && r[i].lng == lng(data[i])
  {
    seq(|data|, i requires 0 <= i < |data| => LatLng(lat(data[i]), lng(data[i])))
  }
}
