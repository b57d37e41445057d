/** The map page (`MapPage`): an older variant of the map component inlined
    into the page, with its own geocoding search, a marker and bounds
    rectangle per selection, zoom state synchronised to the map by an
    effect, and a draggable divider between the map and the side panel. */
module MapPage {
  import opened Wrappers
  import opened Location
  import opened Text
  import Zoom
  import opened MapView
  import opened Geocode

  /** Zoom of the initial and the reset view. */
  const PageZoom: int := 4
  /** Fly-to zoom when the selection's zoom is falsy. */
  const DefaultFlyZoom: int := 10
  /** The divider's limits, in percent of the page width. */
  const MinWidth: real := 30.0
  const MaxWidth: real := 80.0

  /** `Math.min(Math.max(x, 30), 80)`: the divider position kept in range. */
  function ClampWidth(x: real): (r: real)
    ensures MinWidth <= r <= MaxWidth
    ensures MinWidth <= x <= MaxWidth ==> r == x
    ensures x < MinWidth ==> r == MinWidth
    ensures x > MaxWidth ==> r == MaxWidth
  {
    var atLeast := if x > MinWidth then x else MinWidth;
    if atLeast < MaxWidth then atLeast else MaxWidth
  }

  /** Clamping twice is clamping once. */
  lemma ClampIdempotent(x: real)
    ensures ClampWidth(ClampWidth(x)) == ClampWidth(x)
  {
  }

  /** `locationZoom || 10` */
  function PageFlyZoom(zoom: int): (z: int)
    ensures z != 0
    ensures zoom != 0 ==> z == zoom
    ensures zoom == 0 ==> z == DefaultFlyZoom
  {
    if zoom != 0 then zoom else DefaultFlyZoom
  }

  /** The overlays a selection draws: always a marker at its point, then a
      rectangle when it has bounds. */
  function SelectionOverlays(s: Selection): (r: seq<Overlay>)
    ensures 1 <= |r| <= 2 && r[0] == Marker(s.coordinates)
    ensures |r| == 2 <==> s.bounds.Some?
    ensures |r| == 2 ==> r[1] == BoundsRect(s.bounds.value)
  {
    [Marker(s.coordinates)] + BoundsOverlays(s.bounds)
  }

  class MapPage {
    /** The `searchQuery` state. */
    var searchQuery: string
    /** The `selectedLocation` state. */
    var selected: Option<Selection>
    /** The `mapZoom` state. */
    var mapZoom: int
    /** `mapInstanceRef.current !== null` (the map was created at mount). */
    const hasMap: bool
    /** `markersRef.current` */
    var tracked: seq<Overlay>
    /** The overlays currently drawn on the map. */
    var drawn: seq<Overlay>
    /** `map.getZoom()` once the last camera move has settled. */
    var viewZoom: int
    /** Every camera command issued to the map, oldest first. */
    var commands: seq<ViewCommand>
    /** The alerts the search has shown, oldest first. */
    var alerts: seq<Alert>
    /** The `leftWidth` state: the map panel's share of the width, in percent. */
    var leftWidth: real
    /** The `isDragging` state. */
    var isDragging: bool

    /** While the map lives, exactly the tracked overlays are drawn and the
        zoom state agrees with the map's settled zoom; the divider stays in
        its range. */
    ghost predicate Valid()
      reads this
    {
      && (hasMap ==> drawn == tracked && mapZoom == viewZoom)
      && (!hasMap ==> drawn == [] && tracked == [])
      && MinWidth <= leftWidth <= MaxWidth
    }

    /** Mount: the map exists only when Leaflet is loaded and the container
        element exists. */
    constructor (leafletLoaded: bool, hasContainer: bool)
      ensures Valid()
      ensures hasMap == (leafletLoaded && hasContainer)
      ensures searchQuery == [] && selected == None && alerts == []
      ensures mapZoom == PageZoom && viewZoom == PageZoom
      ensures tracked == [] && drawn == []
      ensures commands == if hasMap then [Create(DefaultCenter, PageZoom)] else []
      ensures leftWidth == 60.0 && !isDragging
    {
      searchQuery := [];
      selected := None;
      mapZoom := PageZoom;
      viewZoom := PageZoom;
      hasMap := leafletLoaded && hasContainer;
      tracked := [];
      drawn := [];
      commands := if leafletLoaded && hasContainer then [Create(DefaultCenter, PageZoom)] else [];
      alerts := [];
      leftWidth := 60.0;
      isDragging := false;
    }

    /** The selection effect. With a map and a selection, the tracked
        overlays are removed one by one, the map flies to the point, a marker
        and, with bounds, a rectangle are drawn, and the view is fit to the
        bounds. A `null` selection changes nothing. */
    method SelectionEffect()
      requires Valid()
      modifies this`tracked, this`drawn, this`commands
      ensures Valid()
      ensures hasMap && selected.Some? ==>
        && tracked == SelectionOverlays(selected.value)
        && commands == old(commands) + [FlyTo(selected.value.coordinates, PageFlyZoom(selected.value.zoom))]
                                     + FitCommands(selected.value.bounds)
      ensures !(hasMap && selected.Some?) ==>
        tracked == old(tracked) && drawn == old(drawn) && commands == old(commands)
    {
      if hasMap && selected.Some? {
        var s := selected.value;
        var i := 0;
        while i < |tracked|
          invariant 0 <= i <= |tracked|
          invariant drawn == tracked[i..]
          invariant commands == old(commands)
        {
          drawn := RemoveLayer(drawn, tracked[i]);
          i := i + 1;
        }
        tracked := [];
        ghost var before := commands;
        commands := commands + [FlyTo(s.coordinates, PageFlyZoom(s.zoom))];
        drawn := drawn + [Marker(s.coordinates)];
        tracked := tracked + [Marker(s.coordinates)];
        if s.bounds.Some? {
          var rect := BoundsRect(s.bounds.value);
          drawn := drawn + [rect];
          tracked := tracked + [rect];
          commands := commands + [FitBounds(s.bounds.value, FitPadding)];
        }
        assert commands == before + [FlyTo(s.coordinates, PageFlyZoom(s.zoom))] + FitCommands(s.bounds);
      }
    }

    /** The zoom-sync effect: `setZoom` only when the state differs from the
        map's zoom, after which the two agree. */
    method SyncZoom()
      modifies this`viewZoom, this`commands
      ensures hasMap ==> viewZoom == mapZoom
      ensures hasMap && old(viewZoom) != mapZoom ==> commands == old(commands) + [SetZoom(mapZoom)]
      ensures !(hasMap && old(viewZoom) != mapZoom) ==> viewZoom == old(viewZoom) && commands == old(commands)
    {
      if hasMap && mapZoom != viewZoom {
        commands := commands + [SetZoom(mapZoom)];
        viewZoom := mapZoom;
      }
    }

    /** A new `mapZoom` value; the sync effect runs only when it changed. */
    method SetMapZoom(zoom: int)
      modifies this`mapZoom, this`viewZoom, this`commands
      ensures mapZoom == zoom
      ensures old(mapZoom) != zoom && hasMap && old(viewZoom) != zoom ==>
        viewZoom == zoom && commands == old(commands) + [SetZoom(zoom)]
      ensures !(old(mapZoom) != zoom && hasMap && old(viewZoom) != zoom) ==>
        viewZoom == old(viewZoom) && commands == old(commands)
    {
      if zoom != mapZoom {
        mapZoom := zoom;
        SyncZoom();
      }
    }

    /** `handleZoomIn`: the state steps in; the effect pushes it to the map. */
    method ZoomIn()
      requires Valid()
      modifies this`mapZoom, this`viewZoom, this`commands
      ensures Valid()
      ensures mapZoom == Zoom.StepIn(old(mapZoom))
      ensures Zoom.InRange(old(mapZoom)) ==> Zoom.InRange(mapZoom)
      ensures commands == old(commands) + (if hasMap && mapZoom != old(mapZoom) then [SetZoom(mapZoom)] else [])
      ensures !hasMap ==> viewZoom == old(viewZoom)
    {
      Zoom.StepsStayInRange(mapZoom);
      SetMapZoom(Zoom.StepIn(mapZoom));
    }

    /** `handleZoomOut`: the state steps out; the effect pushes it to the map. */
    method ZoomOut()
      requires Valid()
      modifies this`mapZoom, this`viewZoom, this`commands
      ensures Valid()
      ensures mapZoom == Zoom.StepOut(old(mapZoom))
      ensures Zoom.InRange(old(mapZoom)) ==> Zoom.InRange(mapZoom)
      ensures commands == old(commands) + (if hasMap && mapZoom != old(mapZoom) then [SetZoom(mapZoom)] else [])
      ensures !hasMap ==> viewZoom == old(viewZoom)
    {
      Zoom.StepsStayInRange(mapZoom);
      SetMapZoom(Zoom.StepOut(mapZoom));
    }

    /** The map's `zoomend` event after a camera move settled at `zoom`: the
        state mirrors it, and the sync effect then finds nothing to do. */
    method ZoomEnd(zoom: int)
      requires Valid() && hasMap
      modifies this`mapZoom, this`viewZoom, this`commands
      ensures Valid()
      ensures mapZoom == zoom && viewZoom == zoom && commands == old(commands)
    {
      viewZoom := zoom;
      SetMapZoom(zoom);
    }

    /** `handleResetView`: the selection becomes `null` (which clears no
        overlay); with a map, the view returns to the default center at zoom
        4 and so does the zoom state. Without a map the zoom state is kept. */
    method ResetView()
      requires Valid()
      modifies this`selected, this`mapZoom, this`viewZoom, this`commands, this`tracked, this`drawn
      ensures Valid()
      ensures selected == None
      ensures tracked == old(tracked) && drawn == old(drawn)
      ensures hasMap ==>
        mapZoom == PageZoom && viewZoom == PageZoom && commands == old(commands) + [SetView(DefaultCenter, PageZoom)]
      ensures !hasMap ==> mapZoom == old(mapZoom) && viewZoom == old(viewZoom) && commands == old(commands)
    {
      selected := None;
      SelectionEffect();
      if hasMap {
        commands := commands + [SetView(DefaultCenter, PageZoom)];
        viewZoom := PageZoom;
        SetMapZoom(PageZoom);
      }
    }

    /** The info card's close button: `setSelectedLocation(null)`. */
    method ClearSelection()
      requires Valid()
      modifies this`selected, this`tracked, this`drawn, this`commands
      ensures Valid()
      ensures selected == None
      ensures tracked == old(tracked) && drawn == old(drawn) && commands == old(commands)
    {
      selected := None;
      SelectionEffect();
    }

    /** Typing in the search field. */
    method SetQuery(text: string)
      modifies this`searchQuery
      ensures searchQuery == text
    {
      searchQuery := text;
    }

    /** `handleSearch(query)`, with `response` what the request yields. A
        blank query returns at once, leaving the field as it is. Otherwise a
        hit becomes the selection (and the selection effect runs), anything
        else raises an alert, and the field is cleared either way. */
    method HandleSearch(query: string, response: Response)
      requires Valid()
      modifies this`searchQuery, this`selected, this`tracked, this`drawn, this`commands, this`alerts
      ensures Valid()
      ensures IsBlank(query) ==>
        && searchQuery == old(searchQuery) && selected == old(selected) && alerts == old(alerts)
        && tracked == old(tracked) && commands == old(commands)
      ensures !IsBlank(query) ==> searchQuery == [] && alerts == old(alerts) + Alerted(LookupOf(response))
      ensures !IsBlank(query) && LookupOf(response).Found? ==>
        && selected == Some(LookupOf(response).selection)
        && (hasMap ==> tracked == SelectionOverlays(selected.value))
        && (hasMap ==> commands == old(commands) + [FlyTo(selected.value.coordinates, PageFlyZoom(selected.value.zoom))]
                                                 + FitCommands(selected.value.bounds))
        && (!hasMap ==> tracked == old(tracked) && commands == old(commands))
      ensures !IsBlank(query) && !LookupOf(response).Found? ==>
        selected == old(selected) && tracked == old(tracked) && commands == old(commands)
    {
      var blank := IsBlank(query);
      if blank {
        return;
      }
      var outcome := LookupOf(response);
      if outcome.Found? {
        selected := Some(outcome.selection);
        SelectionEffect();
      } else {
        alerts := alerts + Alerted(outcome);
      }
      searchQuery := [];
    }

    /** Mouse down on the divider. */
    method StartDrag()
      modifies this`isDragging
      ensures isDragging
    {
      isDragging := true;
    }

    /** A mouse move while dragging, at `percent` of the page width. */
    method Drag(percent: real)
      requires Valid()
      modifies this`leftWidth
      ensures Valid()
      ensures isDragging ==> leftWidth == ClampWidth(percent)
      ensures !isDragging ==> leftWidth == old(leftWidth)
    {
      if isDragging {
        leftWidth := ClampWidth(percent);
      }
    }

    /** Mouse up: dragging ends. */
    method EndDrag()
      modifies this`isDragging
      ensures !isDragging
    {
      isDragging := false;
    }
  }

  /** A search hit with a bounding box, on a page with a map: the marker and
      the rectangle are the only overlays, whatever was drawn before. */
  method SearchThenSearchAgain(query: string, first: Hit, second: Hit) returns (overlays: seq<Overlay>, query2: string)
    requires !IsBlank(query)
    requires second.boundingBox.Some?
    ensures overlays == [Marker(Point(second.lat, second.lon)), BoundsRect(ToBounds(second.boundingBox.value))]
    ensures query2 == []
  {
    var page := new MapPage(true, true);
    page.SetQuery(query);
    page.HandleSearch(query, Hits([first]));
    page.SetQuery(query);
    var hit := ToSelection(second);
    assert LookupOf(Hits([second, first])) == Found(hit);
    page.HandleSearch(query, Hits([second, first]));
    assert page.tracked == SelectionOverlays(hit);
    overlays, query2 := page.drawn, page.searchQuery;
  }
}
