/** Location records as the map components receive them, and the
    normaliser (`getCoordinates`) that reads a coordinate pair out of any of
    the three record shapes in use. */
module Location {
  import opened Wrappers

  /** A latitude/longitude pair, in degrees; no range is enforced. */
  datatype Point = Point(lat: real, lng: real)

  /** A rectangle given by its south-west and north-east corners. */
  datatype Bounds = Bounds(southWest: Point, northEast: Point)

  /** A duck-typed location object. A field is `None` when the property is
      `undefined`; `coordinates` is `Some` exactly when the property is an
      array (of any length), whatever other value it might hold otherwise. */
  datatype LocationRecord = LocationRecord(
    name: Option<string>,
    coordinates: Option<seq<real>>,
    lat: Option<real>,
    lng: Option<real>,
    latitude: Option<real>,
    longitude: Option<real>,
    bounds: Option<Bounds>,
    zoom: Option<int>)

  /** The selection the search components produce:
      `{name, coordinates: [lat, lon], bounds, zoom}`. */
  datatype Selection = Selection(name: string, coordinates: Point, bounds: Option<Bounds>, zoom: int)

  /** `getCoordinates(location)`: `null` for a missing record; otherwise the
      first shape that applies, tried in order: an array `coordinates` field
      as it is, then `[lat, lng]`, then `[latitude, longitude]`; `null` when
      none applies. */
  function GetCoordinates(location: Option<LocationRecord>): (r: Option<seq<real>>)
    ensures r.Some? <==> location.Some? && HasSomeShape(location.value)
    ensures r.Some? && location.value.coordinates.None? ==> |r.value| == 2
  {
    match location
    case None => None
    case Some(loc) =>
      if loc.coordinates.Some? then loc.coordinates
      else if loc.lat.Some? && loc.lng.Some? then Some([loc.lat.value, loc.lng.value])
      else if loc.latitude.Some? && loc.longitude.Some? then Some([loc.latitude.value, loc.longitude.value])
      else None
  }

  /** At least one of the three recognised shapes is present. */
  predicate HasSomeShape(loc: LocationRecord) {
    loc.coordinates.Some? || (loc.lat.Some? && loc.lng.Some?) || (loc.latitude.Some? && loc.longitude.Some?)
  }

  /** The record a `Selection` is, seen as a location object. */
  function AsRecord(s: Selection): LocationRecord {
    LocationRecord(Some(s.name), Some([s.coordinates.lat, s.coordinates.lng]),
                   None, None, None, None, s.bounds, Some(s.zoom))
  }

  /** The three shapes, each carrying only its own coordinate fields. */
  function ArrayShape(a: real, b: real): LocationRecord {
    LocationRecord(None, Some([a, b]), None, None, None, None, None, None)
  }

  function LatLngShape(a: real, b: real): LocationRecord {
    LocationRecord(None, None, Some(a), Some(b), None, None, None, None)
  }

  function LatitudeShape(a: real, b: real): LocationRecord {
    LocationRecord(None, None, None, None, Some(a), Some(b), None, None)
  }

  /** The three shapes with equal numbers normalise to the same pair. */
  lemma ShapesAgree(a: real, b: real)
    ensures GetCoordinates(Some(ArrayShape(a, b))) == Some([a, b])
    ensures GetCoordinates(Some(LatLngShape(a, b))) == Some([a, b])
    ensures GetCoordinates(Some(LatitudeShape(a, b))) == Some([a, b])
  {
  }

  /** The shapes are tried in a fixed order: an array `coordinates` field
      wins over `lat`/`lng`, which wins over `latitude`/`longitude`. */
  lemma ShapePrecedence(loc: LocationRecord)
    ensures loc.coordinates.Some? ==> GetCoordinates(Some(loc)) == loc.coordinates
    ensures loc.coordinates.None? && loc.lat.Some? && loc.lng.Some? ==>
      GetCoordinates(Some(loc)) == Some([loc.lat.value, loc.lng.value])
    ensures loc.coordinates.None? && !(loc.lat.Some? && loc.lng.Some?) && loc.latitude.Some? && loc.longitude.Some? ==>
      GetCoordinates(Some(loc)) == Some([loc.latitude.value, loc.longitude.value])
  {
  }

  /** A selection normalises to its own coordinate pair. */
  lemma SelectionCoordinates(s: Selection)
    ensures GetCoordinates(Some(AsRecord(s))) == Some([s.coordinates.lat, s.coordinates.lng])
  {
  }
}
