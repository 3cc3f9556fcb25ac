# SoCalRoutes animated routes: a Dafny model

This project models the core of the SoCalRoutes web application. The app
animates travel routes on a 2D map of Southern California. Its input is a
"Route Paths" feature layer: each route is a polyline with a start time, and
each vertex carries the minutes travelled so far. The app adds an animated
layer titled "SoCal Routes" over it. A marker moves along each route as the
map's time slider advances, and the line behind it fades out. Some identifiers
in the source ("bird", "osprey") are left over from an earlier bird-tracking
app. The model keeps those names. The model covers three parts.

- **Ingestion** (`AnimatedRouteLayer.initializeSources`). The feature query
  returns a list of records. Each record has a track id, a start date and polyline
  paths whose vertices carry a measure: the minutes along the route. Each measure
  becomes an absolute time in milliseconds (`alongToDateValue`). A vertex with no
  measure gets time 0. The paths of a record are concatenated. Records are
  grouped by track id into an insertion-ordered Map, and a later record's
  vertices are appended to those of its track. Finally every track's vertices
  are sorted by time with a stable sort.
- **The route renderer** (`AnimatedRouteRenderer`, `AnimatedRouteSymbol`). It keeps
  a table of image assets: names mapped to an image index and a url, indexed in
  registration order. It also keeps named symbols and a selection colour, and it
  copies a symbol's style onto a draw record.
- **The layer view** (`AnimatedRouteLayerView2D`). It holds one draw record
  `{ id, polyline, marker }` per track, in the order of the sources Map. It runs
  three passes over those records:
  - `updateRenderer` writes the layer renderer's default style.
  - `render` writes the current time-extent start as the progress, and the
    position of the line at that time onto the marker.
  - `identify` is the click rule. After a hit, the hit track is drawn twice as
    large and green, and every other track is reset. After a miss, everything
    returns to the default style.

The modules are:

| file | module |
|---|---|
| `options.dfy` | `Options`: the optional value |
| `colors.dfy` | `Colors`: colours and the channel/255 conversion every colour setter performs |
| `ingestion.dfy` | `Ingestion`: time conversion, grouping, stable sorting, the ingestion loop |
| `route_layer.dfy` | `RouteLayer`: `RouteLocationRenderer` and the layer's `sources` assignment |
| `draw_records.dfy` | `DrawRecords`: the marker and polyline objects, the draw record, state snapshots |
| `route_renderer.dfy` | `RouteRenderer`: symbols, the asset table, `initInfo`/`updateInfo`/`setSelected` |
| `layer_view.dfy` | `LayerView`: the layer view's record list and its three passes |

Each mutable JavaScript object is a Dafny class whose methods update its fields.
This covers the renderers, the symbols, the layer, the view, and the add-on's
marker and polyline objects. Each method is proved against a pure function on a
snapshot of the state. `StateOf(info)` is the snapshot of one draw record. The
properties are proved about those functions as lemmas. A JavaScript `Map` is a
Dafny `map` plus the sequence of its keys in insertion order, because the
application depends on the Map's iteration order.

## Model

| member | source | states |
|---|---|---|
| Colors.ToWGL | app/AnimatedRouteLayer.js:32-40 | a byte colour becomes a WebGL colour with every channel in [0, 1]; alpha is kept |
| Colors.WGLRoundTrip | app/AnimatedRouteLayer.js:34-39 | the conversion to WebGL form loses nothing: scaling back gives the original colour |
| Colors.ToWGLInjective | app/AnimatedRouteRenderer.js:32-40 | distinct colours get distinct WebGL forms |
| Ingestion.AlongToDateValue | app/AnimatedRouteLayer.js:148-152 | the time is start plus minutes times 60000: the minutes can be recovered from it, and a non-negative measure is never before the start |
| Ingestion.AlongToDateValueMonotonic | app/AnimatedRouteLayer.js:150-152 | the conversion preserves and reflects the order of measures |
| Ingestion.ToVertex | app/AnimatedRouteLayer.js:166-173 | x and y are kept; a measured vertex gets the converted time, an unmeasured one time 0 |
| Ingestion.PathVertices | app/AnimatedRouteLayer.js:166-173 | one converted vertex per input vertex, in order |
| Ingestion.ConcatPaths | app/AnimatedRouteLayer.js:165-175 | the concatenation has as many vertices as all paths together |
| Ingestion.ConcatPathsAt | app/AnimatedRouteLayer.js:165-175 | vertex j of path p sits at position (vertices of paths before p) + j, converted |
| Ingestion.IdsOccur | app/AnimatedRouteLayer.js:158-186 | an id is a key exactly when some record carries it |
| Ingestion.TrackOrder | app/AnimatedRouteLayer.js:178-185 | the key order has no duplicates and contains exactly the ids of the records |
| Ingestion.GatheredSplit | app/AnimatedRouteLayer.js:178-185 | a track's vertices from two runs of records are the first run's followed by the second's |
| Ingestion.AppendRecord | app/AnimatedRouteLayer.js:178-185 | one more record adds its id at the end of the order only if new, and appends its vertices to its own track only |
| Ingestion.GatheredAbsent | app/AnimatedRouteLayer.js:181-183 | an id no record carries has no vertices, so a new entry starts from the record's own coordinates |
| Ingestion.InsertByTimePermutes | app/AnimatedRouteLayer.js:190-192 | inserting a vertex adds exactly that vertex |
| Ingestion.InsertByTimeSorted | app/AnimatedRouteLayer.js:190-192 | inserting into a time-sorted list keeps it sorted |
| Ingestion.InsertByTimeWithTime | app/AnimatedRouteLayer.js:190-192 | the inserted vertex goes before every vertex of equal time |
| Ingestion.SortByTime | app/AnimatedRouteLayer.js:190-192 | the sort by `a[2] - b[2]`: the result is ordered by time and is a permutation of the input; SortByTimeStable adds that equal times keep their order, so the result is exactly that of the stable JavaScript sort |
| Ingestion.SortByTimeStable | app/AnimatedRouteLayer.js:189-193 | vertices with equal time keep their relative order (a stable sort) |
| Ingestion.IngestedTrack | app/AnimatedRouteLayer.js:158-196 | every ingested track has its own id and is sorted, a permutation of its gathered vertices, and stable |
| Ingestion.IngestionOrderHasEntries | app/AnimatedRouteLayer.js:178-185 | every key in the order has an entry whose id is that key |
| Ingestion.GroupStep | app/AnimatedRouteLayer.js:177-185 | one reduce step keeps the entries and the key order equal to those of the records seen so far |
| Ingestion.GroupRecords | app/AnimatedRouteLayer.js:158-186 | the reduce yields the first-appearance key order, one entry per id, each holding all the id's vertices in record order |
| Ingestion.SortTracks | app/AnimatedRouteLayer.js:189-193 | the forEach sorts every entry's geometry by time and changes nothing else |
| Ingestion.GroupByTrack | app/AnimatedRouteLayer.js:158-196 | the result is exactly the ingestion of the records; no records give an empty Map |
| RouteLayer.RouteLocationRenderer.constructor | app/AnimatedRouteLayer.js:23-73 | every property is stored, and each WebGL colour mirrors its colour |
| RouteLayer.RouteLocationRenderer.Default | app/AnimatedRouteLayer.js:76-84 | the shared default: circle, #d9832e, size 14, white line of width 8, a 3-minute cutoff, opacity 0.1; its style is DefaultRendererStyle |
| RouteLayer.RouteLocationRenderer.SetBirdColor | app/AnimatedRouteLayer.js:32-40 | stores the colour and its WebGL form; no other property changes; the colours stay mirrored |
| RouteLayer.RouteLocationRenderer.SetLineColor | app/AnimatedRouteLayer.js:50-58 | stores the line colour and its WebGL form; no other property changes; the colours stay mirrored |
| RouteLayer.AnimatedRouteLayer.constructor | app/AnimatedRouteLayer.js:104-120 | the layer starts with the shared default renderer object, whose style is that of `RouteLocationRenderer.default`; it has no sources, and identify is off |
| RouteLayer.AnimatedRouteLayer.InitializeSources | app/AnimatedRouteLayer.js:146-199 | `sources` becomes the ingestion of the answered records |
| RouteRenderer.AnimatedRouteSymbol.constructor | app/AnimatedRouteRenderer.js:17-67 | the symbol holds the given options, and its WebGL colours mirror its colours |
| RouteRenderer.AnimatedRouteSymbol.SetColor | app/AnimatedRouteRenderer.js:30-41 | only the colour and its WebGL form change |
| RouteRenderer.AnimatedRouteSymbol.SetLineColor | app/AnimatedRouteRenderer.js:48-59 | only the line colour and its WebGL form change |
| RouteRenderer.Register | app/AnimatedRouteRenderer.js:105 | the name maps to (current Map size, url); other names are unchanged; the table stays well formed |
| RouteRenderer.RegisterAll | app/AnimatedRouteRenderer.js:103-107 | registering a list keeps the table well formed |
| RouteRenderer.ImageUrls | app/AnimatedRouteRenderer.js:108-110 | one url per registered name |
| RouteRenderer.FreshRegistration | app/AnimatedRouteRenderer.js:103-107 | on an empty table, distinct names get image indices 0, 1, 2, ... in registration order |
| RouteRenderer.RegisterNewName | app/AnimatedRouteRenderer.js:105 | a name not yet registered goes to the end of the key order, with image index the number of names registered before it |
| RouteRenderer.FreshRegistrationImages | app/AnimatedRouteRenderer.js:103-110 | ... and the image list holds name k's url at position k, so each image index points at its own image |
| RouteRenderer.RegisteredUrl | app/AnimatedRouteRenderer.js:104-106 | with distinct names, each name keeps its own url |
| RouteRenderer.ReRegistrationIndexOutOfList | app/AnimatedRouteRenderer.js:105 | registering an existing name again gives it an index past the end of the image list |
| RouteRenderer.SymbolApplied | app/AnimatedRouteRenderer.js:133-139 | the record shows the symbol's image, size, colours and width; identity, geometry, motion, flap and fade are kept |
| RouteRenderer.SymbolInitialised | app/AnimatedRouteRenderer.js:114-122 | as SymbolApplied, and the fade parameters become the symbol's |
| RouteRenderer.SelectionApplied | app/AnimatedRouteRenderer.js:123-126 | both colours become the selection colour; nothing else changes |
| RouteRenderer.SymbolAppliedUnique | app/AnimatedRouteRenderer.js:133-139 | any record that shows the symbol and keeps everything else is exactly the `_update` result |
| RouteRenderer.InitialiseIsUpdatePlusFade | app/AnimatedRouteRenderer.js:114-132 | initInfo equals updateInfo plus the fade parameters, and a following updateInfo changes nothing |
| RouteRenderer.SelectionKeepsSymbolShape | app/AnimatedRouteRenderer.js:123-139 | selecting after an update keeps the symbol's image, size and width and only recolours |
| RouteRenderer.AnimatedRouteRenderer.constructor | app/AnimatedRouteRenderer.js:98-102 | empty asset and symbol tables; the selection colour is cyan |
| RouteRenderer.AnimatedRouteRenderer.SetSelectionColor | app/AnimatedRouteRenderer.js:81-92 | stores the selection colour and its WebGL form; the tables are unchanged |
| RouteRenderer.AnimatedRouteRenderer.RegisterAssets | app/AnimatedRouteRenderer.js:103-107 | the asset table becomes the old table with every pair registered in order |
| RouteRenderer.AnimatedRouteRenderer.GetImageAssets | app/AnimatedRouteRenderer.js:108-110 | the urls in the Map's insertion order, one per name |
| RouteRenderer.AnimatedRouteRenderer.SetSymbol | app/AnimatedRouteRenderer.js:111-113 | a new symbol with the given options is stored under the name; other names are unchanged |
| RouteRenderer.AnimatedRouteRenderer.InitInfo | app/AnimatedRouteRenderer.js:114-122 | an unknown name changes nothing; otherwise the record becomes SymbolInitialised |
| RouteRenderer.AnimatedRouteRenderer.SetSelected | app/AnimatedRouteRenderer.js:123-126 | the record becomes SelectionApplied with the selection colour |
| RouteRenderer.AnimatedRouteRenderer.UpdateInfo | app/AnimatedRouteRenderer.js:127-132 | an unknown name changes nothing; otherwise the record becomes SymbolApplied |
| RouteRenderer.AnimatedRouteRenderer.Update | app/AnimatedRouteRenderer.js:133-139 | the record becomes SymbolApplied with the asset's image index |
| LayerView.DefaultStyled | app/AnimatedRouteLayerView2D.js:107-119 | the record carries the renderer's default style and the asset's image index and flap; identity, geometry and motion are kept |
| LayerView.DefaultStyledFixpoint | app/AnimatedRouteLayerView2D.js:102-121 | a record is unchanged by updateRenderer exactly when it is already in default style, so the pass is idempotent |
| LayerView.RenderProgress | app/AnimatedRouteLayerView2D.js:130 | the progress is the time-extent start, or 0 without a time extent |
| LayerView.Progressed | app/AnimatedRouteLayerView2D.js:132-139 | the line's progress and the marker's position and heading at that time are set; all style is kept |
| LayerView.ProgressedCommutesWithDefaultStyled | app/AnimatedRouteLayerView2D.js:102-139 | render and updateRenderer touch disjoint fields, so their order does not matter |
| LayerView.ProgressedIdempotent | app/AnimatedRouteLayerView2D.js:132-139 | rendering twice at the same progress equals rendering once |
| LayerView.Identified | app/AnimatedRouteLayerView2D.js:158-168 | the hit track becomes double size and green; every other track gets the default size and colours; widths, fade, image and motion are kept |
| LayerView.HitHighlightsExactlyHitTrack | app/AnimatedRouteLayerView2D.js:152-168 | with a non-zero marker size, a record is highlighted after a hit exactly when its id is the hit id |
| LayerView.HitLeavesOtherDefaultRecords | app/AnimatedRouteLayerView2D.js:163-167 | a hit leaves a default-styled record of another track exactly as it was |
| LayerView.MissClearsSelection | app/AnimatedRouteLayerView2D.js:170-172 | after a miss the record is the same whatever the earlier selection was, and nothing is highlighted |
| LayerView.ApplyDefaultStyle | app/AnimatedRouteLayerView2D.js:107-119 | one record becomes DefaultStyled |
| LayerView.ApplyProgress | app/AnimatedRouteLayerView2D.js:132-139 | one record becomes Progressed |
| LayerView.ApplyIdentify | app/AnimatedRouteLayerView2D.js:158-168 | one record becomes Identified |
| LayerView.DefaultSymbolIsViewAsset | app/AnimatedRouteLayerView2D.js:32-37 | the default renderer's symbol type "circle" is one of the view's default assets: image 1, no flap; so `updateRenderer` on a default layer finds its asset |
| LayerView.AnimatedRouteLayerView2D.constructor | app/AnimatedRouteLayerView2D.js:22-50 | an empty record list and the default bird and circle assets; the view owns no marker or polyline yet |
| LayerView.AnimatedRouteLayerView2D.Attach | app/AnimatedRouteLayerView2D.js:55-72 | one new record per track in Map order, each with a new marker (bird and circle images) and a new polyline over the track's geometry, all carrying the track id; the view owns only new objects besides its earlier ones; earlier records keep their motion; then every record is in default style |
| LayerView.AnimatedRouteLayerView2D.AddRecord | app/AnimatedRouteLayerView2D.js:60-69 | one record is pushed with a new marker and polyline for the track; earlier records are unchanged |
| LayerView.AnimatedRouteLayerView2D.UpdateRenderer | app/AnimatedRouteLayerView2D.js:102-121 | every record becomes DefaultStyled for the layer renderer and the asset of its symbol type |
| LayerView.AnimatedRouteLayerView2D.Render | app/AnimatedRouteLayerView2D.js:127-143 | every record becomes Progressed at the render progress |
| LayerView.AnimatedRouteLayerView2D.Identify | app/AnimatedRouteLayerView2D.js:149-173 | after a hit every record becomes Identified; after a miss every record becomes DefaultStyled |

## Left out

- `getSourcesFeatures` (the feature query and its promise) is left out. The ingestion starts from the answered records.
- `moment.utc` date parsing is left out. Each record's start time is given as milliseconds since the epoch.
- The start-time arithmetic is exact: times are Dafny reals. JavaScript doubles and the `Date` rounding of fractional milliseconds are not modelled.
- `Ingestion.ToVertex`: the source overwrites the third number of the query's own coordinate arrays in place. The model builds new vertices, so it does not capture that aliasing.
- The ingestion keys tracks by whatever the id attribute holds. A record without that attribute is grouped under the key `undefined`, not skipped. The model follows the code, and ids are integers.
- The audubon WebGL add-on is not part of this model: `createMarker`, `createPolyline`, `getPositionAtTime`, `hitTest` and `render`. A new marker or polyline holds only the fields the application sets. The position query is the parameter `positionAt`, and the hit test's answer is the parameter `hitId`.
- Interpolation along a line and the fade after `cutoffTime` are drawn by the add-on, so they are left out.
- The property watchers (`whenDefinedOnce` on `sources`, `identifyEnabled`, `timeExtent`) and the click handle are left out. `Attach` is the callback run once the sources exist, and `Identify` is the click handler.
- `detach` has an empty body and is not modelled.
- Colour parsing (`new Color('#d9832e')`, `'cyan'`) is not modelled. Colours are given parsed.
- WebGL colour arrays are values in the model. In the source, one array may be shared by several markers.
- `LayerView.AnimatedRouteLayerView2D.UpdateRenderer` requires the renderer's symbol type to be a known asset whenever there are records. In the source an unknown type fails on the first record.
- `RouteRenderer.AnimatedRouteRenderer.Update` requires the symbol's type to be a registered asset. The source fails on a missing asset in the same way.
- RouteLayer.AnimatedRouteLayer.constructor: the shared default renderer is passed in. It is required to still hold the values it was created with. A program that changes `RouteLocationRenderer.default` before it creates a layer is not modelled.
- `RouteRenderer.SymbolOptions` holds every symbol option. The source's `new AnimatedRouteSymbol(options)` also accepts partial options and leaves the missing properties undefined. Partial options are not modelled.
- app/Main.js, which sets up the map and the user interface, is not part of this model.
