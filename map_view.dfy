/** The Leaflet map as the map components see it: the overlays drawn on it
    and the camera commands sent to it. Geometry, tiles and animation are
    not modelled; a camera command is recorded as issued. */
module MapView {
  import opened Wrappers
  import opened Location

  /** Center of the default view (the whole of Canada). */
  const DefaultCenter: Point := Point(56.1304, -106.3468)
  /** Padding, per side, when the view is fit to a selection's bounds. */
  const FitPadding: int := 50

  /** A layer drawn on the map. `HighlightBox` is the fixed-size dashed square
      centred on a point; its corner offsets (a cosine of the latitude) are
      abstracted into the center it is drawn around. */
  datatype Overlay =
    | BoundsRect(bounds: Bounds)
    | HighlightBox(center: Point)
    | Marker(at: Point)

  /** A command issued to the map instance. */
  datatype ViewCommand =
    | Create(center: Point, zoom: int)
    | FlyTo(target: Point, zoom: int)
    | FitBounds(bounds: Bounds, padding: int)
    | SetZoom(zoom: int)
    | SetView(center: Point, zoom: int)
    | Destroy

  /** `layer.remove()`: the map's layer list without (one occurrence of) the
      given layer. */
  function RemoveLayer(drawn: seq<Overlay>, layer: Overlay): (r: seq<Overlay>)
    ensures layer in drawn ==> |r| == |drawn| - 1 && multiset(r) == multiset(drawn) - multiset{layer}
    ensures layer !in drawn ==> r == drawn
  {
    if drawn == [] then []
    else if drawn[0] == layer then
      assert drawn == [drawn[0]] + drawn[1..];
      drawn[1..]
    else
      assert drawn == [drawn[0]] + drawn[1..];
      [drawn[0]] + RemoveLayer(drawn[1..], layer)
  }

  /** The rectangle drawn for a selection's optional bounds. */
  function BoundsOverlays(bounds: Option<Bounds>): seq<Overlay> {
    if bounds.Some? then [BoundsRect(bounds.value)] else []
  }

  /** The `fitBounds` call issued for a selection's optional bounds. */
  function FitCommands(bounds: Option<Bounds>): seq<ViewCommand> {
    if bounds.Some? then [FitBounds(bounds.value, FitPadding)] else []
  }
}
