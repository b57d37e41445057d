# BramHacks dashboard core, modelled in Dafny

This project models the stateful core of the BramHacks climate dashboard, a
React application built on Leaflet. It covers:

- **MapComponent**, the reusable map. It normalises the three location shapes
  (`getCoordinates`). On each new selection it clears the overlays it tracks,
  flies to the point, draws the bounds rectangle at once and a highlight box
  when a 2-second timer fires. It keeps its zoom state in step with the map.
- **Map page** (`Map.jsx`): the full-screen map with its own selection effect
  (marker plus bounds rectangle), the zoom-sync effect, the geocoding search,
  the zoom and reset buttons and the clamped split-panel divider.
- **SearchBar**: the same geocoding search, reporting the selection upward.
- **DataLayers**: the toggled list of active layers and the summary line.
- **AirQualityIndex**: building the chart entries from `"YYYY-MM"` keys and
  splitting them into the historical and forecast lines, plus the axis-tick
  and tooltip formatting.
- **ChatInterface**: the transcript restored from and persisted to browser
  storage, and the send and clear handlers.
- **Hero**: the landing prompt's submit guard and the code-fence stripping of
  the model's reply.

Leaflet is abstracted as three things: the list of layers drawn on the map
(`drawn`), a log of camera commands (`commands`), and the zoom the map settles
at (`viewZoom`). Requests, the model calls and storage are inputs or fields:
the geocoding response, the model outcome and the stored value are passed in
already parsed.

Modules, in dependency order: `Wrappers` (Option), `Text` (JavaScript `trim`,
the blank test, `split(..)[0]`), `Location`, `Zoom`, `MapView`,
`MapComponent`, `Geocode`, `MapPage`, `DataLayers`, `AirQuality`, `Chat`,
`Hero`.

Three behaviours of the code are worth stating outright, because a reader
might expect otherwise:

- A reset leaves the overlays on the map. Both selection effects return at
  once on a `null` selection, and neither reset handler touches the tracked
  overlays (`MapComponent.ResetKeepsOverlays`).
- The highlight timer is never cancelled. After two quick selections, the
  first selection's box lands in the second selection's overlay list
  (`MapComponent.StaleHighlight`).
- When a selection has bounds, the map component draws both the bounds
  rectangle and the highlight box.

## Model

| member | source | states |
|---|---|---|
| Text.TrimStart | src/Components/main/ChatInterface.jsx:36 | the result is the suffix of the input that starts at its first non-space character; everything dropped is whitespace |
| Text.TrimEnd | src/Components/main/ChatInterface.jsx:36 | the result is the prefix of the input that ends at its last non-space character; everything dropped is whitespace |
| Text.TrimIsSlice | src/Pages/Hero.jsx:38 | `trim` returns a contiguous slice of its input that neither starts nor ends with whitespace, and only whitespace is cut from either end |
| Text.TrimAroundTrimmed | src/Components/stats/AirQualityIndex.jsx:19 | trimming whitespace-padded, already-trimmed text gives that text back |
| Text.BlankIffAllSpace | src/Components/map/SearchBar.jsx:8 | `!query.trim()` holds exactly when every character of the query is whitespace (the empty query included) |
| Text.Trim | src/Components/map/SearchBar.jsx:8 | `s.trim()` never lengthens the text and neither starts nor ends with whitespace; `TrimIsSlice` shows it is the slice between the whitespace ends |
| Text.IsBlank | src/Components/main/ChatInterface.jsx:36 | the guard `!s.trim()` of the three handlers (also `src/Pages/Hero.jsx:15`); `BlankIffAllSpace` shows it holds exactly for all-whitespace text |
| Text.TakeUntil | src/Components/stats/DataLayers.jsx:61 | `s.split(sep)[0]` is the longest prefix without `sep`; it is followed by `sep` unless it is the whole string |
| Location.GetCoordinates | src/Components/map/MapComponent.jsx:12-25 | coordinates exist exactly when a location is given and has one of the three shapes; the pair shapes give two numbers |
| Location.ShapesAgree | src/Components/map/MapComponent.jsx:15-23 | a `coordinates` array, a `lat`/`lng` pair and a `latitude`/`longitude` pair all yield `[lat, lng]` |
| Location.ShapePrecedence | src/Components/map/MapComponent.jsx:15-23 | an array `coordinates` field wins and is returned unchanged; otherwise `lat`/`lng` beats `latitude`/`longitude` |
| Location.SelectionCoordinates | src/Components/map/SearchBar.jsx:28-33 | a selection built by a search reads back as its own point |
| Zoom.StepIn | src/Components/map/MapComponent.jsx:130 | `Math.min(z + 1, 18)`: at most 18, at most one more than `z`, and exactly one more unless capped |
| Zoom.StepOut | src/Components/map/MapComponent.jsx:136 | `Math.max(z - 1, 1)`: at least 1, at least one less than `z`, and exactly one less unless floored |
| Zoom.StepsStayInRange | src/Components/map/MapComponent.jsx:129-139 | both steps keep a zoom in 1..18 in range; one step in from any zoom of 0 or more, or one step out from any zoom up to 19, lands in range |
| Zoom.StepsInvert | src/Components/map/MapComponent.jsx:129-139 | zooming in then out (or out then in) returns to the start away from the ends; the ends are fixed points |
| MapView.RemoveLayer | src/Components/map/MapComponent.jsx:80-82 | removing a drawn layer drops exactly one occurrence of it and leaves the rest; removing an absent layer changes nothing |
| MapComponent.FlyZoom | src/Components/map/MapComponent.jsx:77 | `selectedLocation.zoom \|\| 13`: the given zoom unless it is missing or 0, else 13 |
| MapComponent.MapController.constructor | src/Components/map/MapComponent.jsx:28-55 | the map exists exactly when Leaflet and the container exist; it is created at the default centre with `initialZoom`; nothing is drawn or tracked |
| MapComponent.MapController.ClearTracked | src/Components/map/MapComponent.jsx:79-83 | every tracked overlay is removed from the map, and the tracked list ends empty |
| MapComponent.MapController.SelectLocation | src/Components/map/MapComponent.jsx:66-127 | with no map, no selection or no coordinates nothing changes; otherwise the old overlays go, the map flies to the point at `FlyZoom`, one highlight timer is scheduled, and the bounds rectangle is drawn and fitted when the selection has bounds; drawn layers always equal the tracked list |
| MapComponent.MapController.FireHighlight | src/Components/map/MapComponent.jsx:89-112 | the oldest timer fires; with a live map its box is appended to whatever list is tracked now; after unmount nothing is drawn |
| MapComponent.MapController.ZoomIn | src/Components/map/MapComponent.jsx:129-133 | the zoom state becomes `StepIn` of the old one, stays in range, and the map is told to zoom there when it exists |
| MapComponent.MapController.ZoomOut | src/Components/map/MapComponent.jsx:135-139 | the zoom state becomes `StepOut` of the old one, stays in range, and the map is told to zoom there when it exists |
| MapComponent.MapController.ResetView | src/Components/map/MapComponent.jsx:141-145 | `null` is reported upward, the map is set back to the default centre at `initialZoom`, and the zoom state becomes `initialZoom` |
| MapComponent.MapController.ZoomEnd | src/Components/map/MapComponent.jsx:48-52 | the zoom state mirrors the map's zoom, and the zoom is reported upward exactly when a callback was passed |
| MapComponent.MapController.Unmount | src/Components/map/MapComponent.jsx:57-62 | the map is destroyed once, and nothing is drawn any longer |
| MapComponent.StaleHighlight | src/Components/map/MapComponent.jsx:80-111 | two quick selections, then the first timer fires: the first point's box sits next to the second selection's bounds rectangle |
| MapComponent.ResetKeepsOverlays | src/Components/map/MapComponent.jsx:141-145 | after a reset the previous bounds rectangle is still drawn, while the zoom is back at 4 |
| MapComponent.TimerAfterUnmount | src/Components/map/MapComponent.jsx:89-90 | a timer that fires after unmount draws and tracks nothing |
| Geocode.ToBounds | src/Components/map/SearchBar.jsx:23-26 | `[[south, west], [north, east]]` from the provider's box; `BoundsRoundTrip` shows the reordering loses nothing |
| Geocode.BoundsRoundTrip | src/Components/map/SearchBar.jsx:23-26 | reordering the provider's `[south, north, west, east]` into corners and back loses nothing, in both directions |
| Geocode.ToSelection | src/Components/map/SearchBar.jsx:18-33 | the selection has the hit's name and point, zoom 11, and bounds exactly when the hit has a bounding box, with the corners placed correctly |
| Geocode.LookupOf | src/Components/map/SearchBar.jsx:10-40 | a failed request is an error, an empty or non-list result is "not found", and otherwise the first hit is selected |
| Geocode.OnlyFirstHitCounts | src/Components/map/SearchBar.jsx:17-18 | hits after the first never change the outcome |
| Geocode.SearchBar.constructor | src/Components/map/SearchBar.jsx:4 | the field starts empty; nothing has been reported and no alert shown |
| Geocode.SearchBar.SetQuery | src/Components/map/SearchBar.jsx:69 | typing sets the field |
| Geocode.SearchBar.HandleSearch | src/Components/map/SearchBar.jsx:7-43 | a blank query changes nothing; any other query clears the field, reports exactly the found selection, and shows exactly one alert when nothing is found or the request fails |
| Geocode.SearchOutcomes | src/Components/map/SearchBar.jsx:7-43 | an empty result and an error report nothing; a hit reports its selection at zoom 11; the field ends cleared |
| MapPage.ClampWidth | src/Pages/Map.jsx:26 | the divider width is kept within 30..80, values in range pass unchanged, and out-of-range values stick to the nearer end |
| MapPage.ClampIdempotent | src/Pages/Map.jsx:26 | clamping twice is clamping once |
| MapPage.PageFlyZoom | src/Pages/Map.jsx:92 | `locationZoom \|\| 10`: the given zoom unless it is 0, and exactly 10 for a zero zoom |
| MapPage.SelectionOverlays | src/Pages/Map.jsx:113-128 | a selection is drawn as a marker at its point, followed by the bounds rectangle exactly when it has bounds |
| MapPage.MapPage.constructor | src/Pages/Map.jsx:4-11 | the page starts with an empty query, no selection, zoom 4 and a 60% left panel; the map is created when Leaflet and the container exist |
| MapPage.MapPage.SelectionEffect | src/Pages/Map.jsx:84-130 | with a map and a selection, the old layers are removed, the map flies to the point, and exactly the selection's marker and rectangle are tracked and drawn; otherwise nothing changes |
| MapPage.MapPage.SyncZoom | src/Pages/Map.jsx:133-137 | the map is told to zoom only when its zoom differs from the state, and afterwards they agree |
| MapPage.MapPage.SetMapZoom | src/Pages/Map.jsx:133-137 | setting the zoom state runs the sync effect only when the value changes |
| MapPage.MapPage.ZoomIn | src/Pages/Map.jsx:194-197 | the zoom becomes `StepIn` of the old one; exactly one `setZoom` is issued when a map exists and the zoom changed, and none otherwise; without a map the view is untouched |
| MapPage.MapPage.ZoomOut | src/Pages/Map.jsx:199-202 | the zoom becomes `StepOut` of the old one; exactly one `setZoom` is issued when a map exists and the zoom changed, and none otherwise; without a map the view is untouched |
| MapPage.MapPage.ZoomEnd | src/Pages/Map.jsx:68-70 | the zoom state mirrors the map's zoom, and no command is issued |
| MapPage.MapPage.ResetView | src/Pages/Map.jsx:186-192 | the selection is dropped but the overlays stay; with a map the view returns to the default centre at zoom 4; without one, zoom, view and commands are unchanged |
| MapPage.MapPage.ClearSelection | src/Pages/Map.jsx:451 | closing the info card drops the selection and leaves the overlays and the camera alone |
| MapPage.MapPage.SetQuery | src/Pages/Map.jsx:248 | typing sets the field |
| MapPage.MapPage.HandleSearch | src/Pages/Map.jsx:139-179 | a blank query changes nothing; otherwise the field is cleared, a hit becomes the selection, is drawn as its marker and rectangle, and (with a map) the camera flies to it at `locationZoom \|\| 10` and fits its bounds; a miss or failure raises exactly one alert and keeps the old selection |
| MapPage.MapPage.StartDrag | src/Pages/Map.jsx:466 | pressing the divider starts a drag |
| MapPage.MapPage.Drag | src/Pages/Map.jsx:20-27 | while dragging, the width becomes the clamped pointer position; otherwise it is unchanged |
| MapPage.MapPage.EndDrag | src/Pages/Map.jsx:29-30 | releasing the mouse ends the drag |
| MapPage.SearchThenSearchAgain | src/Pages/Map.jsx:84-179 | after two successful searches only the second selection's marker and rectangle are drawn, and the field is empty |
| DataLayers.Without | src/Components/stats/DataLayers.jsx:15 | `filter(id => id !== layer)` removes every occurrence, keeps every other id and never grows |
| DataLayers.Toggle | src/Components/stats/DataLayers.jsx:13-17 | the id becomes active exactly when it was inactive; it is appended when added; other ids stay |
| DataLayers.WithoutAppend | src/Components/stats/DataLayers.jsx:15 | filtering distributes over concatenation |
| DataLayers.WithoutKeepsNoDuplicates | src/Components/stats/DataLayers.jsx:15 | filtering keeps a duplicate-free list duplicate-free |
| DataLayers.ToggleKeepsNoDuplicates | src/Components/stats/DataLayers.jsx:13-17 | toggling keeps the active list free of duplicates |
| DataLayers.ToggleTwiceRestores | src/Components/stats/DataLayers.jsx:13-17 | toggling an inactive id twice gives back the original list |
| DataLayers.ToggleKeepsOthersInOrder | src/Components/stats/DataLayers.jsx:13-17 | the other ids keep their relative order |
| DataLayers.WithoutIdempotent | src/Components/stats/DataLayers.jsx:15 | filtering twice is filtering once |
| DataLayers.SummaryOf | src/Components/stats/DataLayers.jsx:58-62 | the summary shows exactly when a place is selected and a layer is active; it gives the count, says "layer" only for exactly one, and names the part before the first comma |
| AirQuality.Round2 | src/Components/stats/AirQualityIndex.jsx:24 | `Number(x.toFixed(2))` lies within 0.005 of `x` and is a whole number of hundredths |
| AirQuality.AqiOf | src/Components/stats/AirQualityIndex.jsx:24 | NaN reads as 0; a number is rounded to within 0.005 |
| AirQuality.NumberOf | src/Components/stats/AirQualityIndex.jsx:19 | `Number(piece)` on the date pieces is never negative when defined |
| AirQuality.NumberOfDigits | src/Components/stats/AirQualityIndex.jsx:19 | a piece of decimal digits, with any whitespace around it, reads as its value |
| AirQuality.MakeEntry | src/Components/stats/AirQualityIndex.jsx:17-27 | an entry keeps its key and the rounded reading |
| AirQuality.BuildData | src/Components/stats/AirQualityIndex.jsx:17-27 | one entry per key, in order: each is the entry `MakeEntry` builds for that key and reading, so it carries the key, the rounded reading (0 for NaN) and the forecast flag `EntryOfKey` pins down |
| AirQuality.IsForecast | src/Components/stats/AirQualityIndex.jsx:20 | the forecast test, with NaN or undefined pieces making every comparison false; `ForecastIsLaterMonth` and `EntryOfKey` state when it holds |
| AirQuality.Historical | src/Components/stats/AirQualityIndex.jsx:29 | the historical line holds only non-forecast entries of the data |
| AirQuality.Forecast | src/Components/stats/AirQualityIndex.jsx:30 | the forecast line holds only forecast entries of the data |
| AirQuality.SplitIsPartition | src/Components/stats/AirQualityIndex.jsx:29-30 | the two lines partition the data: every entry is in exactly one of them, as often as in the data |
| AirQuality.SplitKeepsOrder | src/Components/stats/AirQualityIndex.jsx:29-30 | both filters distribute over concatenation, so each line keeps the data's order |
| AirQuality.ForecastLineIffSomeForecast | src/Components/stats/AirQualityIndex.jsx:147 | the dashed forecast line is drawn exactly when some entry is a forecast |
| AirQuality.ForecastIsLaterMonth | src/Components/stats/AirQualityIndex.jsx:20 | for real months an entry is a forecast exactly when its month comes after the current one; the current month is historical |
| AirQuality.EntryOfKey | src/Components/stats/AirQualityIndex.jsx:17-27 | an entry keyed `<digits>-<digits>` is a forecast exactly when that year and month, read as numbers, come after the current ones |
| AirQuality.YearPiece | src/Components/stats/AirQualityIndex.jsx:19 | the first piece of `date.split("-")`: the prefix before the first `-`, or the whole key |
| AirQuality.MonthPiece | src/Components/stats/AirQualityIndex.jsx:19 | the second piece exists exactly when the key has a `-`, and holds no `-` |
| AirQuality.KeyParts | src/Components/stats/AirQualityIndex.jsx:19 | splitting `"YYYY-MM"` on `-` gives the year and the month pieces |
| AirQuality.TickLabel | src/Components/stats/AirQualityIndex.jsx:117-120 | `${month}/${year.slice(2)}`, with a missing month printed as "undefined"; `TickLabelOfKey` gives its value on `"YYYY-MM"` |
| AirQuality.TickLabelOfKey | src/Components/stats/AirQualityIndex.jsx:117-120 | the axis tick of `"YYYY-MM"` is `"MM/YY"` |
| AirQuality.LeadingDigits | src/Components/stats/AirQualityIndex.jsx:37 | the leading digits `parseInt` reads are a prefix of digits, followed by a non-digit or nothing |
| AirQuality.ParseInt | src/Components/stats/AirQualityIndex.jsx:37 | `parseInt` is defined exactly when digits follow the leading whitespace, and is then never negative; `ParseIntOfDigits` gives its value |
| AirQuality.MonthName | src/Components/stats/AirQualityIndex.jsx:36-37 | `monthNames[m - 1]` is defined exactly for months 1..12 and names that month |
| AirQuality.TooltipMonth | src/Components/stats/AirQualityIndex.jsx:35-37 | the tooltip's month label is always one of the twelve month names when defined; `TooltipMonthOfKey` says which |
| AirQuality.TooltipMonthOfKey | src/Components/stats/AirQualityIndex.jsx:35-37 | for `"YYYY-MM"` with a month in 1..12 the tooltip names that month |
| AirQuality.ParseIntOfDigits | src/Components/stats/AirQualityIndex.jsx:37 | `parseInt` of a non-empty string of digits is its value |
| Chat.Restore | src/Components/main/ChatInterface.jsx:19-27 | a stored array is restored as is; an absent, unparsable or non-array value restores as an empty transcript |
| Chat.Reply | src/Components/main/ChatInterface.jsx:62-66 | the reply is an assistant message with the response text, or the fixed error text on failure |
| Chat.PersistRestoreRoundTrip | src/Components/main/ChatInterface.jsx:19-32 | a persisted transcript is restored unchanged |
| Chat.Exchange | src/Components/main/ChatInterface.jsx:56-66 | one send adds the prompt as the user's message, then the assistant's reply |
| Chat.ChatSession.constructor | src/Components/main/ChatInterface.jsx:18-32 | the transcript is restored from storage and persisted again; not loading; empty prompt |
| Chat.ChatSession.SetPrompt | src/Components/main/ChatInterface.jsx:108 | typing sets the prompt |
| Chat.ChatSession.BeginSend | src/Components/main/ChatInterface.jsx:36-57 | a blank prompt changes nothing; otherwise the user's message is appended, `loading` is set and storage follows |
| Chat.ChatSession.CompleteSend | src/Components/main/ChatInterface.jsx:59-70 | exactly one assistant message is appended; `loading` ends false and the prompt empty on both paths |
| Chat.ChatSession.Send | src/Components/main/ChatInterface.jsx:34-71 | a blank prompt changes nothing; otherwise the user message and then the reply are appended, the old transcript is a prefix of the new one, and storage holds the transcript |
| Chat.ChatSession.ClearChat | src/Components/main/ChatInterface.jsx:73-76 | the transcript ends empty, and storage holds the empty transcript |
| Chat.ChatScenario | src/Components/main/ChatInterface.jsx:19-76 | unreadable storage starts empty; a blank prompt sends nothing; a failed send shows the prompt then the error text; a clear survives a reload |
| Hero.RemoveAll | src/Pages/Hero.jsx:36-37 | a global replace with `""` never lengthens the text |
| Hero.RemoveAllAbsent | src/Pages/Hero.jsx:36-37 | text without the pattern comes back unchanged |
| Hero.RemoveAllPastPrefix | src/Pages/Hero.jsx:36-37 | the left-to-right scan passes a prefix without backticks unchanged |
| Hero.NoFenceLeft | src/Pages/Hero.jsx:37 | after removing every fence, no fence is left, even where removal joins two pieces |
| Hero.Clean | src/Pages/Hero.jsx:35-38 | the cleaning chain never lengthens the reply; `CleanIsClean`, `CleanIdempotent`, `CleanWithoutBackticks` and `CleanOfFencedJson` state what it guarantees |
| Hero.CleanIsClean | src/Pages/Hero.jsx:35-38 | the cleaned reply holds no fence and has no whitespace at either end |
| Hero.CleanIdempotent | src/Pages/Hero.jsx:35-38 | cleaning twice is cleaning once |
| Hero.CleanWithoutBackticks | src/Pages/Hero.jsx:35-38 | text without a backtick is only trimmed |
| Hero.CleanOfFencedJson | src/Pages/Hero.jsx:35-38 | a reply wrapped in a JSON code fence cleans to the bare text |
| Hero.HeroEntry | src/Pages/Hero.jsx:42-43 | a successful submit stores the user's message as a single object |
| Hero.HeroEntryRestoresEmpty | src/Pages/Hero.jsx:43 | the chat panel restores what the landing page stores as an empty transcript |
| Hero.HeroForm.constructor | src/Pages/Hero.jsx:12 | the field starts empty |
| Hero.HeroForm.SetInput | src/Pages/Hero.jsx:76-77 | typing sets the field |
| Hero.HeroForm.Submit | src/Pages/Hero.jsx:14-51 | a blank field does nothing; otherwise the field is cleared before the call, a reply is cleaned, and storage is written exactly when the cleaned reply parses |
| Hero.HeroScenario | src/Pages/Hero.jsx:14-51 | a fenced JSON reply cleans to the bare JSON, and what is stored restores as an empty transcript |

## Left out

- Leaflet itself: tile layers, fly-to animation, `fitBounds` geometry and
  `invalidateSize` (`src/Pages/Map.jsx:29-34`). Camera moves are only
  recorded as commands. The map's zoom after an animation is an explicit
  `ZoomEnd` event.
- The highlight box geometry (2.5 km, `cos(lat)`). A box is identified by its
  centre, because the offsets are floating-point trigonometry.
- `MapComponent.MapController.SelectLocation`: a coordinate array with fewer
  than two numbers is modelled as Leaflet throwing inside `flyTo`, after the
  overlays were cleared. Longer arrays are destructured into their first
  two numbers before `flyTo`, as in the source.
- Malformed `bounds` values, and coordinates that are not numbers.
  Coordinates are reals, and bounds are either absent or a pair of corners.
- Re-running MapComponent's set-up effect when `initialZoom` or
  `onZoomChange` change. The component is modelled with both fixed.
- The Map page's unmount (`map.remove()`), the mouse-to-percent conversion
  (DOM geometry) and the body cursor styles. Only the clamp and the drag
  flag are kept.
- `fetch`, `encodeURIComponent`, `response.json()`, `parseFloat`, `alert`
  and `console`. The parsed response, or a thrown error, is an input, and
  alerts are recorded.
- Overlapping asynchronous searches or sends. Each handler runs to
  completion without another one in between. `ChatSession` also exposes the
  two halves of a send so the `loading` state can be observed.
- `new Date()`: the current year and month are parameters.
- `AirQuality.NumberOf`: models `Number` only for surrounding whitespace, an
  empty piece (0) and decimal digits. Signs, decimals, exponents and hex
  forms read as NaN here.
- `AirQuality.ParseInt`: likewise covers only leading whitespace and decimal
  digits, not signs or radix prefixes.
- `AirQuality.Round2`: `toFixed(2)` is modelled on exact reals, rounding
  ties away from zero. Binary floating-point representation error is not
  modelled.
- String readings that `parseFloat` turns into numbers: a reading is
  either a number or NaN by the time it reaches the chart.
- The Gemini calls and the prompt text built for them. A call is its
  outcome: the reply text, or a failure.
- `localStorage` is a field holding the parsed value rather than JSON text.
  JSON encoding and decoding are assumed to round-trip.
- The Hero page's error path calls an undefined `setChat`, so it throws
  inside its own `catch`. The model records only that storage is left
  alone.
- Whether `JSON.parse` accepts the cleaned reply is a parameter of
  `Hero.HeroForm.Submit`. The parsed data is unused in the source.
- `handlePromptClick` in the Hero page (a 300 ms timer that only logs and
  clears the field).
- The zoom buttons' `disabled` guards (`src/Components/map/MapComponent.jsx:183`,
  `:197`; `src/Pages/Map.jsx:371`, `:398`). `ZoomIn` and `ZoomOut` can be
  called at 18 or 1, where the map component still issues a `setZoom` to
  the same level, which the rendered page would not allow.
- Rendering, routing, charts drawn on canvas (`LineGraph`), the land-cover
  bars, the particles configuration and the other presentational
  components.
