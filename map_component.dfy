/** The reusable map component (`MapComponent`): it owns a Leaflet map,
    mirrors the map's zoom into its own zoom state, and on each new
    selection clears the overlays it tracks, flies to the selected point and
    draws a bounds rectangle now and a highlight box when a 2-second timer
    fires. The timer is never cancelled. */
module MapComponent {
  import opened Wrappers
  import opened Location
  import Zoom
  import opened MapView

  /** Fly-to zoom when the selection has none (or a falsy one). */
  const DefaultFlyZoom: int := 13

  /** A call the component makes to its parent. */
  datatype Upward =
    | LocationSelected(selection: Option<LocationRecord>)
    | ZoomChanged(zoom: int)

  /** `selectedLocation.zoom || 13`: 0 is falsy, so it also falls back. */
  function FlyZoom(zoom: Option<int>): (z: int)
    ensures z != 0
    ensures zoom.Some? && zoom.value != 0 ==> z == zoom.value
    ensures zoom.None? || zoom.value == 0 ==> z == DefaultFlyZoom
  {
    if zoom.Some? && zoom.value != 0 then zoom.value else DefaultFlyZoom
  }

  class MapController {
    /** The `initialZoom` prop (4 unless the parent passes another). */
    const initialZoom: int
    /** Whether the parent passed an `onZoomChange` callback. */
    const reportsZoom: bool

    /** The component's `mapZoom` state. */
    var mapZoom: int
    /** `mapInstanceRef.current !== null`. */
    var hasMap: bool
    /** The map instance has been destroyed by the unmount cleanup. */
    var removed: bool
    /** `markersRef.current`: the overlays the component tracks. */
    var tracked: seq<Overlay>
    /** The overlays currently drawn on the map. */
    var drawn: seq<Overlay>
    /** `map.getZoom()` once the last camera move has settled. */
    var viewZoom: int
    /** Every camera command issued to the map, oldest first. */
    var commands: seq<ViewCommand>
    /** Centers of the highlight timers scheduled and not yet fired, oldest first. */
    var pending: seq<Point>
    /** Calls made to the parent's callbacks, oldest first. */
    var upward: seq<Upward>

    /** While the map lives, exactly the tracked overlays are drawn and the
        zoom state agrees with the map's settled zoom; without a map nothing
        is drawn. */
    ghost predicate Valid()
      reads this
    {
      && (hasMap ==> drawn == tracked && mapZoom == viewZoom)
      && (!hasMap ==> drawn == [])
      && (removed ==> !hasMap)
    }

    /** Mount: the map is created only when Leaflet is loaded and the
        container element exists; otherwise the component stays map-less. */
    constructor (initialZoom: int, reportsZoom: bool, leafletLoaded: bool, hasContainer: bool)
      ensures Valid()
      ensures this.initialZoom == initialZoom && this.reportsZoom == reportsZoom
      ensures hasMap == (leafletLoaded && hasContainer) && !removed
      ensures mapZoom == initialZoom && viewZoom == initialZoom
      ensures tracked == [] && drawn == [] && pending == [] && upward == []
      ensures commands == if hasMap then [Create(DefaultCenter, initialZoom)] else []
    {
      this.initialZoom := initialZoom;
      this.reportsZoom := reportsZoom;
      mapZoom := initialZoom;
      viewZoom := initialZoom;
      hasMap := leafletLoaded && hasContainer;
      removed := false;
      tracked := [];
      drawn := [];
      pending := [];
      upward := [];
      commands := if leafletLoaded && hasContainer then [Create(DefaultCenter, initialZoom)] else [];
    }

    /** The forEach-remove loop followed by `markersRef.current = []`. */
    method ClearTracked()
      requires Valid() && hasMap
      modifies this`tracked, this`drawn
      ensures Valid()
      ensures tracked == [] && drawn == []
    {
      var i := 0;
      while i < |tracked|
        invariant 0 <= i <= |tracked|
        invariant drawn == tracked[i..]
      {
        drawn := RemoveLayer(drawn, tracked[i]);
        i := i + 1;
      }
      tracked := [];
    }

    /** The selection effect, run when the `selectedLocation` prop changes.
        Nothing happens without a map, for a `null` selection, or when the
        coordinates do not normalise. Otherwise the tracked overlays are
        removed, the map flies to the point, a highlight timer is scheduled,
        and bounds, when present, are drawn and fit. A coordinates array of
        fewer than two numbers makes the fly-to throw, which ends the effect
        right after the clear. */
    method SelectLocation(selection: Option<LocationRecord>)
      requires Valid()
      modifies this
      ensures Valid()
      ensures mapZoom == old(mapZoom) && viewZoom == old(viewZoom) && upward == old(upward)
      ensures hasMap == old(hasMap) && removed == old(removed)
      ensures var coords := GetCoordinates(selection);
        if !hasMap || coords.None? then
          tracked == old(tracked) && drawn == old(drawn) && commands == old(commands) && pending == old(pending)
        else if |coords.value| < 2 then
          tracked == [] && commands == old(commands) && pending == old(pending)
        else
          var target := Point(coords.value[0], coords.value[1]);
          && tracked == BoundsOverlays(selection.value.bounds)
          && commands == old(commands) + [FlyTo(target, FlyZoom(selection.value.zoom))]
                                       + FitCommands(selection.value.bounds)
          && pending == old(pending) + [target]
    {
      if !hasMap || selection.None? {
        return;
      }
      var coords := GetCoordinates(selection);
      if coords.None? {
        return;
      }
      var loc := selection.value;
      ClearTracked();
      if |coords.value| < 2 {
        return;
      }
      var target := Point(coords.value[0], coords.value[1]);
      commands := commands + [FlyTo(target, FlyZoom(loc.zoom))];
      pending := pending + [target];
      if loc.bounds.Some? {
        var rect := BoundsRect(loc.bounds.value);
        drawn := drawn + [rect];
        tracked := tracked + [rect];
        commands := commands + [FitBounds(loc.bounds.value, FitPadding)];
      }
    }

    /** The oldest pending highlight timer fires: when the map still exists
        it draws the highlight box and pushes it onto whatever list is
        tracked now, which may already belong to a later selection. */
    method FireHighlight()
      requires Valid() && pending != []
      modifies this`pending, this`tracked, this`drawn
      ensures Valid()
      ensures pending == old(pending[1..])
      ensures hasMap ==> tracked == old(tracked) + [HighlightBox(old(pending[0]))]
      ensures !hasMap ==> tracked == old(tracked) && drawn == old(drawn)
    {
      var center := pending[0];
      pending := pending[1..];
      if hasMap {
        var box := HighlightBox(center);
        drawn := drawn + [box];
        tracked := tracked + [box];
      }
    }

    /** `handleZoomIn`: one level in, pushed to the map when there is one. */
    method ZoomIn()
      requires Valid()
      modifies this`mapZoom, this`viewZoom, this`commands
      ensures Valid()
      ensures mapZoom == Zoom.StepIn(old(mapZoom))
      ensures Zoom.InRange(old(mapZoom)) ==> Zoom.InRange(mapZoom)
      ensures hasMap ==> viewZoom == mapZoom && commands == old(commands) + [SetZoom(mapZoom)]
      ensures !hasMap ==> viewZoom == old(viewZoom) && commands == old(commands)
    {
      var newZoom := Zoom.StepIn(mapZoom);
      Zoom.StepsStayInRange(mapZoom);
      mapZoom := newZoom;
      if hasMap {
        viewZoom := newZoom;
        commands := commands + [SetZoom(newZoom)];
      }
    }

    /** `handleZoomOut`: one level out, pushed to the map when there is one. */
    method ZoomOut()
      requires Valid()
      modifies this`mapZoom, this`viewZoom, this`commands
      ensures Valid()
      ensures mapZoom == Zoom.StepOut(old(mapZoom))
      ensures Zoom.InRange(old(mapZoom)) ==> Zoom.InRange(mapZoom)
      ensures hasMap ==> viewZoom == mapZoom && commands == old(commands) + [SetZoom(mapZoom)]
      ensures !hasMap ==> viewZoom == old(viewZoom) && commands == old(commands)
    {
      var newZoom := Zoom.StepOut(mapZoom);
      Zoom.StepsStayInRange(mapZoom);
      mapZoom := newZoom;
      if hasMap {
        viewZoom := newZoom;
        commands := commands + [SetZoom(newZoom)];
      }
    }

    /** `handleResetView`: reports a `null` selection to the parent and puts
        the view back at the default center and initial zoom. The overlays
        are left alone: the `null` selection that comes back triggers no
        clear. */
    method ResetView()
      requires Valid()
      modifies this`mapZoom, this`viewZoom, this`commands, this`upward
      ensures Valid()
      ensures upward == old(upward) + [LocationSelected(None)]
      ensures mapZoom == initialZoom
      ensures hasMap ==> viewZoom == initialZoom && commands == old(commands) + [SetView(DefaultCenter, initialZoom)]
      ensures !hasMap ==> viewZoom == old(viewZoom) && commands == old(commands)
    {
      upward := upward + [LocationSelected(None)];
      if hasMap {
        commands := commands + [SetView(DefaultCenter, initialZoom)];
        viewZoom := initialZoom;
      }
      mapZoom := initialZoom;
    }

    /** The map's `zoomend` event after a camera move settled at `zoom`
        (wheel, pinch, fly-to or fit): the zoom state mirrors it and the
        parent is told when it listens. */
    method ZoomEnd(zoom: int)
      requires Valid() && hasMap
      modifies this`mapZoom, this`viewZoom, this`upward
      ensures Valid()
      ensures viewZoom == zoom && mapZoom == zoom
      ensures upward == old(upward) + (if reportsZoom then [ZoomChanged(zoom)] else [])
    {
      viewZoom := zoom;
      mapZoom := zoom;
      if reportsZoom {
        upward := upward + [ZoomChanged(zoom)];
      }
    }

    /** The unmount cleanup: the map instance, and every layer on it, is
        destroyed. `markersRef` keeps its stale list and pending timers stay
        scheduled. */
    method Unmount()
      requires Valid()
      modifies this`hasMap, this`removed, this`drawn, this`commands
      ensures Valid()
      ensures !hasMap && drawn == []
      ensures removed == (old(hasMap) || old(removed))
      ensures commands == old(commands) + (if old(hasMap) then [Destroy] else [])
    {
      if hasMap {
        commands := commands + [Destroy];
        hasMap := false;
        removed := true;
        drawn := [];
      }
    }
  }

  /** A selection given only by a coordinate pair and optional bounds. */
  function PointSelection(p: Point, bounds: Option<Bounds>): LocationRecord {
    LocationRecord(None, Some([p.lat, p.lng]), None, None, None, None, bounds, None)
  }

  /** Two selections in quick succession, then the first timer fires: the
      first selection's highlight box lands in the second selection's list,
      next to the second selection's bounds rectangle. */
  method StaleHighlight(a: Point, b: Point, bBounds: Bounds) returns (overlays: seq<Overlay>, stillPending: seq<Point>)
    ensures overlays == [BoundsRect(bBounds), HighlightBox(a)]
    ensures stillPending == [b]
  {
    var m := new MapController(4, false, true, true);
    m.SelectLocation(Some(PointSelection(a, None)));
    m.SelectLocation(Some(PointSelection(b, Some(bBounds))));
    m.FireHighlight();
    overlays, stillPending := m.tracked, m.pending;
  }

  /** Reset after a selection with bounds: the bounds rectangle stays on the
      map, since neither the reset nor the `null` selection it causes clears
      the tracked overlays. */
  method ResetKeepsOverlays(p: Point, bounds: Bounds) returns (overlays: seq<Overlay>, zoom: int)
    ensures overlays == [BoundsRect(bounds)]
    ensures zoom == 4
  {
    var m := new MapController(4, false, true, true);
    m.SelectLocation(Some(PointSelection(p, Some(bounds))));
    m.ZoomIn();
    m.ResetView();
    m.SelectLocation(None);
    overlays, zoom := m.drawn, m.mapZoom;
  }

  /** A highlight timer that fires after unmount touches nothing: no layer is
      drawn on the destroyed map. */
  method TimerAfterUnmount(p: Point) returns (drawnAfter: seq<Overlay>, trackedAfter: seq<Overlay>)
    ensures drawnAfter == []
    ensures trackedAfter == []
  {
    var m := new MapController(4, true, true, true);
    m.SelectLocation(Some(PointSelection(p, None)));
    m.Unmount();
    m.FireHighlight();
    drawnAfter, trackedAfter := m.drawn, m.tracked;
  }
}
