/** Turning a geocoding (Nominatim) response into a map selection, and the
    search bar's `handleSearch`. The request itself is not modelled: the
    parsed response, or the failure, is an input. */
module Geocode {
  import opened Wrappers
  import opened Location
  import opened Text

  /** Suggested zoom for a freshly geocoded place. */
  const CityZoom: int := 11

  /** The provider's `boundingbox`, in its own order: south, north, west, east. */
  datatype BoundingBox = BoundingBox(south: real, north: real, west: real, east: real)

  /** One search result, with its numeric fields already parsed. */
  datatype Hit = Hit(displayName: string, lat: real, lon: real, boundingBox: Option<BoundingBox>)

  /** What `await response.json()` yields: an array of hits, some other JSON
      value, or a thrown error (network failure or malformed JSON). */
  datatype Response =
    | Hits(hits: seq<Hit>)
    | NotAList
    | TransportError

  datatype Lookup =
    | Found(selection: Selection)
    | NotFound
    | Failed

  /** The alert the search shows when it finds nothing or fails. */
  datatype Alert = NotFoundAlert | ErrorAlert

  /** `[[south, west], [north, east]]`: the box reordered into corners. */
  function ToBounds(box: BoundingBox): Bounds {
    Bounds(Point(box.south, box.west), Point(box.north, box.east))
  }

  /** The provider's order read back from corners. */
  function ToBoundingBox(b: Bounds): BoundingBox {
    BoundingBox(b.southWest.lat, b.northEast.lat, b.southWest.lng, b.northEast.lng)
  }

  /** The reordering loses nothing: each form converts to the other and back. */
  lemma BoundsRoundTrip(box: BoundingBox, b: Bounds)
    ensures ToBoundingBox(ToBounds(box)) == box
    ensures ToBounds(ToBoundingBox(b)) == b
  {
  }

  /** The selection built from one hit. */
  function ToSelection(hit: Hit): (s: Selection)
    ensures s.name == hit.displayName && s.zoom == CityZoom
    ensures s.coordinates == Point(hit.lat, hit.lon)
    ensures s.bounds.None? <==> hit.boundingBox.None?
    ensures s.bounds.Some? ==> ToBoundingBox(s.bounds.value) == hit.boundingBox.value
    ensures s.bounds.Some? ==>
      && s.bounds.value.southWest == Point(hit.boundingBox.value.south, hit.boundingBox.value.west)
      && s.bounds.value.northEast == Point(hit.boundingBox.value.north, hit.boundingBox.value.east)
  {
    var bounds := if hit.boundingBox.Some? then Some(ToBounds(hit.boundingBox.value)) else None;
    Selection(hit.displayName, Point(hit.lat, hit.lon), bounds, CityZoom)
  }

  /** `data && data.length > 0 ? select(data[0]) : alert`, inside a
      try/catch: only the first hit is used. */
  function LookupOf(response: Response): (r: Lookup)
    ensures r.Failed? <==> response.TransportError?
    ensures r.Found? <==> response.Hits? && response.hits != []
    ensures r.Found? ==> r.selection == ToSelection(response.hits[0])
  {
    match response
    case TransportError => Failed
    case NotAList => NotFound
    case Hits(hits) => if hits == [] then NotFound else Found(ToSelection(hits[0]))
  }

  /** Hits after the first never influence the outcome. */
  lemma OnlyFirstHitCounts(first: Hit, rest1: seq<Hit>, rest2: seq<Hit>)
    ensures LookupOf(Hits([first] + rest1)) == LookupOf(Hits([first] + rest2))
  {
  }

  /** The selection passed on: one for a hit, none otherwise. */
  function Selected(l: Lookup): seq<Selection> {
    if l.Found? then [l.selection] else []
  }

  /** The alert shown: none for a hit. */
  function Alerted(l: Lookup): seq<Alert> {
    match l
    case Found(_) => []
    case NotFound => [NotFoundAlert]
    case Failed => [ErrorAlert]
  }

  /** The search bar (`SearchBar`): a query field, and a callback through
      which it passes selections to its parent. */
  class SearchBar {
    /** The `searchQuery` state. */
    var searchQuery: string
    /** The selections passed to `onLocationSelect`, oldest first. */
    var emitted: seq<Selection>
    /** The alerts shown, oldest first. */
    var alerts: seq<Alert>

    constructor ()
      ensures searchQuery == [] && emitted == [] && alerts == []
    {
      searchQuery := [];
      emitted := [];
      alerts := [];
    }

    /** Typing in the field. */
    method SetQuery(text: string)
      modifies this`searchQuery
      ensures searchQuery == text
    {
      searchQuery := text;
    }

    /** `handleSearch(query)`, with `response` what the request yields. A
        blank query returns before any request, leaving the field as it is;
        any other query ends with the field cleared, whatever the outcome,
        and the callback called exactly when there was a hit. */
    method HandleSearch(query: string, response: Response)
      modifies this
      ensures IsBlank(query) ==>
        searchQuery == old(searchQuery) && emitted == old(emitted) && alerts == old(alerts)
      ensures !IsBlank(query) ==>
        && searchQuery == []
        && emitted == old(emitted) + Selected(LookupOf(response))
        && alerts == old(alerts) + Alerted(LookupOf(response))
    {
      if IsBlank(query) {
        return;
      }
      var outcome := LookupOf(response);
      match outcome {
        case Found(selection) =>
          emitted := emitted + [selection];
        case NotFound =>
          alerts := alerts + [NotFoundAlert];
        case Failed =>
          alerts := alerts + [ErrorAlert];
      }
      searchQuery := [];
    }
  }

  /** An empty result or a failure never reaches the callback, and a hit
      reaches it with the city zoom. */
  method SearchOutcomes(query: string, hit: Hit) returns (afterEmpty: seq<Selection>, afterError: seq<Selection>, afterHit: seq<Selection>, cleared: bool)
    requires !IsBlank(query)
    ensures afterEmpty == [] && afterError == []
    ensures afterHit == [ToSelection(hit)] && afterHit[0].zoom == CityZoom
    ensures cleared
  {
    var bar := new SearchBar();
    bar.SetQuery(query);
    bar.HandleSearch(query, Hits([]));
    afterEmpty := bar.emitted;
    bar.HandleSearch(query, TransportError);
    afterError := bar.emitted;
    bar.SetQuery(query);
    bar.HandleSearch(query, Hits([hit]));
    afterHit := bar.emitted;
    cleared := bar.searchQuery == [];
  }
}
