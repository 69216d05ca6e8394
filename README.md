# Leaflet.glify in Dafny

Leaflet.glify is a Leaflet plugin that draws large sets of points, images,
lines and polygons with WebGL. Each handler (Points, Images, Lines, Shapes)
keeps its own canvas overlay, which redraws on every map move. It also
keeps an interleaved vertex buffer: two pixel coordinates and three colour
components per vertex. Points and Images also keep a lookup of their data
in 0.01-degree grid cells, used to answer map clicks; Lines resets its
lookup and never fills it, so its clicks search all the data.

This project models those parts of the plugin:

- **Settings.** Defaults are merged into the caller's settings, functions
  are resolved by `tryFunction`, and the base class `MapItem` checks that
  each handler implements the abstract methods and that settings are
  present.
- **Matrix.** The 4x4 `MapMatrix` is updated in place.
- **Overlay.** `CanvasOverlay` coalesces redraw requests into one frame and
  runs the queued callbacks in order; a frame without a map, or one in
  which a call throws, leaves the frame pending. It also subscribes to map
  events and unsubscribes from them, and is added to and removed from a
  map as Leaflet's `addLayer` and `removeLayer` do it.
- **Helpers.** The geometry helpers of `L.glify` are modelled:
  `flattenData`, `pointInCircle`, `closest`, `vectorDistance`,
  `locationDistance` and `color.fromHex`.
- **Vertex buffers.** Each handler has a `resetVertices` that fills its
  buffer and its lookup:
  - one vertex per point;
  - four corners per line segment, with the closing segment treated
    specially;
  - earcut triangles per polygon.
- **Clicks.** Each handler has a `tryClick`. The `GLMap` coordinator
  dispatches a click to Points first, then to Shapes.

### Modules

- **Js.** Values as JavaScript sees them.
- **Leaflet.** The host map.
- **Helpers, MapMatrixModel, CanvasOverlayModel, Color, Glify, MapItemModel,
  PointsModel, ImagesModel, LinesModel, ShapesModel, GLMapModel.** One
  module per source file.
- **Grid.** Grid keys, buckets and the neighbourhood scan, shared by
  points, images and lines.
- **HandlerBase.** What all handlers share: projection, colour resolution,
  `pointSize` and the click result.

### How the model is built

- Objects that the source mutates are classes.
  - Each state-changing loop is a method. Its `ensures` ties the new state
    to a specification function.
  - Lemmas prove what the source promises about those functions.
- External oracles are parameters. These are the colour callback, the
  projection, earcut and the polygon lookup.
- A WebGL frame is an explicit step (`CanvasOverlay.RedrawFrame`). It is
  not an asynchronous callback.

## Model

| member | source | states |
|---|---|---|
| Js.Member | src/points.js:265-268 | reading a property yields nothing exactly on undefined/null; on an object it is the property's value |
| Js.NatText | src/helpers.js:20-24 | the property-name text of a number is never empty |
| Helpers.Defaults | src/helpers.js:1-11 | the merged settings hold exactly the defaults' keys; each value is the caller's where given and the default otherwise; equals `Merged` |
| Helpers.MergedDropsUnknownKeys | src/helpers.js:4-8 | a caller key that has no default is dropped |
| Helpers.MergedIdempotent | src/helpers.js:1-11 | merging the defaults a second time changes nothing |
| Helpers.MergedCallerCovers | src/helpers.js:4-8 | when the caller supplies every key, the merge is the caller's settings restricted to the default keys |
| Helpers.TryFunction | src/helpers.js:13-25 | a function is returned as is; a string naming an own property of the lookup returns that property |
| Helpers.TryFunctionNull | src/helpers.js:13-25 | the result is null exactly when the value is not a function and there is no lookup, or the lookup does not own it |
| Helpers.TryFunctionNamed | src/helpers.js:19-24 | a name resolves to the lookup's entry when present and to null otherwise |
| Helpers.TryFunctionRange | src/helpers.js:13-25 | the result is the value itself, an entry of the lookup, or null |
| MapMatrixModel.Overwritten | src/map-matrix.js:13-16 | `set` overwrites the first entries with the given values and keeps the rest |
| MapMatrixModel.MapMatrix.constructor | src/map-matrix.js:4-11 | a fresh 16-entry buffer of zeros |
| MapMatrixModel.MapMatrix.Set | src/map-matrix.js:13-16 | in place: at most 16 values overwrite the front of the buffer; more raise a RangeError and leave it unchanged |
| MapMatrixModel.MapMatrix.TranslateMatrix | src/map-matrix.js:18-26 | in place: the buffer becomes `Translated` of the old one; the matrix itself is returned |
| MapMatrixModel.TranslatedIs | src/map-matrix.js:18-26 | entries 0 to 11 are kept and entries 12 to 15 move by tx times the x column plus ty times the y column |
| MapMatrixModel.MapMatrix.ScaleMatrix | src/map-matrix.js:28-41 | in place: the buffer becomes `Scaled` of the old one; the matrix itself is returned |
| MapMatrixModel.MapMatrix.Matrix | src/map-matrix.js:43-45 | the getter returns the buffer itself, not a copy |
| MapMatrixModel.SetReplacesAll | src/map-matrix.js:13-16 | setting 16 values replaces the whole matrix |
| MapMatrixModel.ScaleEntries | src/map-matrix.js:28-41 | scaling multiplies the first two columns (entries 0-7) and leaves the rest |
| MapMatrixModel.TranslateEntries | src/map-matrix.js:18-26 | translating adds `m[k]*tx + m[4+k]*ty` to entries 12-15 and leaves the rest |
| MapMatrixModel.ScaleTwice | src/map-matrix.js:28-41 | two scalings compose into one by the product |
| MapMatrixModel.TranslateTwice | src/map-matrix.js:18-26 | two translations compose into one by the sum |
| MapMatrixModel.ScaleByOne | src/map-matrix.js:28-41 | scaling by 1 is the identity |
| MapMatrixModel.TranslateByZero | src/map-matrix.js:18-26 | translating by (0, 0) is the identity |
| MapMatrixModel.SetScaleTranslate | src/points.js:175-181 | the entries of set-then-scale-then-translate, entry by entry |
| MapMatrixModel.ApplyTranslated | src/map-matrix.js:18-26 | the translated matrix maps (x, y) where the old one maps (x+tx, y+ty) |
| MapMatrixModel.ApplyScaled | src/map-matrix.js:28-41 | the scaled matrix maps (x, y) where the old one maps (s·x, s·y) |
| MapMatrixModel.FrameTransform | src/points.js:175-181 | the frame matrix chain applies the projection matrix to `scale·(point + offset)` |
| CanvasOverlayModel.Redrawn | src/canvasoverlay.js:30-38 | `redraw` queues a function callback (and ignores anything else); it requests a frame only when none is pending |
| CanvasOverlayModel.Functions | src/canvasoverlay.js:31-33 | the queued callbacks are all functions, no more than were passed |
| CanvasOverlayModel.RedrawsCoalesce | src/canvasoverlay.js:30-38 | a burst of redraws queues every function in order and requests at most one frame |
| CanvasOverlayModel.FrameCalls | src/canvasoverlay.js:99-112 | a frame makes the user draw call first (when one is set), then one call per queued callback |
| CanvasOverlayModel.Drained | src/canvasoverlay.js:110-112 | draining calls each queued callback once, in queue order |
| CanvasOverlayModel.FrameCallsOrder | src/canvasoverlay.js:99-112 | the k-th queued callback is the k-th call after the user draw call |
| CanvasOverlayModel.FrameCallsSplit | src/canvasoverlay.js:92-115 | the user draw call followed by the drain is the frame's call list |
| CanvasOverlayModel.DrainedStep | src/canvasoverlay.js:110-112 | draining one more callback appends exactly its call |
| CanvasOverlayModel.FrameRunsBurstInOrder | src/canvasoverlay.js:30-38 | the frame after a burst of redraws runs the user draw, then the burst's functions in order |
| CanvasOverlayModel.SubscriptionsUndone | src/canvasoverlay.js:55-74 | every listener `onAdd` subscribes is one `onRemove` unsubscribes |
| CanvasOverlayModel.AddRemoveRestores | src/canvasoverlay.js:40-74 | removing after adding restores every other listener set |
| CanvasOverlayModel.Canvas.constructor | src/canvasoverlay.js:42 | a new canvas is 300x150 with no class |
| CanvasOverlayModel.CanvasOverlay.constructor | src/canvasoverlay.js:13-18 | the user draw function is kept; nothing is queued, in flight or attached |
| CanvasOverlayModel.CanvasOverlay.Drawing | src/canvasoverlay.js:20-23 | `drawing` replaces the user draw function and returns the overlay |
| CanvasOverlayModel.CanvasOverlay.Redraw | src/canvasoverlay.js:30-38 | in place: the redraw state becomes `Redrawn` of the old one |
| CanvasOverlayModel.FirstThrowing | src/canvasoverlay.js:110-112 | the index of the first queued callback that throws: every earlier one does not, and it does unless it is the queue's length |
| CanvasOverlayModel.FrameCompletes | src/canvasoverlay.js:92-114 | a frame completes exactly when the overlay is on a map, the draw value is unset or a non-throwing function, and no queued callback throws; it then makes `FrameCalls`, empties the queue and clears the frame handle |
| CanvasOverlayModel.FrameThrowsAt | src/canvasoverlay.js:110-114 | a throwing callback is the frame's last call: the earlier callbacks each ran once in order, the later ones stay queued, and the frame handle stays set |
| CanvasOverlayModel.FailedFrameStalls | src/canvasoverlay.js:30-37 | after a failed frame the handle stays set, so later redraws queue their callbacks and request no frame |
| CanvasOverlayModel.CanvasOverlay.RedrawFrame | src/canvasoverlay.js:92-114 | in place: outcome, calls made and new redraw state are `Frame` of the old state; without a map it throws a TypeError before any call, and a truthy non-function draw setting throws next |
| CanvasOverlayModel.CanvasOverlay.RunFrame | src/canvasoverlay.js:99-114 | the user draw call and the drain, with the outcome, calls and state of `Frame` |
| CanvasOverlayModel.CanvasOverlay.DrainFrame | src/canvasoverlay.js:110-114 | the drain's calls are made; a throwing callback leaves the rest queued and the frame handle set; otherwise the queue is empty and the handle cleared |
| CanvasOverlayModel.CanvasOverlay.DrainCallbacks | src/canvasoverlay.js:110-112 | loop: callbacks are shifted and called in order until one throws; the queue, calls made and the thrower are `DrainOf` of the old queue |
| CanvasOverlayModel.CanvasOverlay.Resize | src/canvasoverlay.js:81-84 | the canvas takes the new size and keeps its class; there is a TypeError when there is no canvas |
| CanvasOverlayModel.CanvasOverlay.OnAdd | src/canvasoverlay.js:40-63 | the canvas is created once, sized to the map and classed by zoom animation; the map listeners gain the subscriptions; a first frame runs on the map, with the outcome, calls and state of `Frame` |
| CanvasOverlayModel.CanvasOverlay.Attach | src/canvasoverlay.js:40-60 | the map is kept, the canvas created only when missing, sized to the map, classed by zoom animation, and the map's listeners gain exactly the moveend, resize and (when animated) zoomanim subscriptions |
| CanvasOverlayModel.CanvasOverlay.OnRemove | src/canvasoverlay.js:65-74 | the map listeners lose the unsubscriptions |
| CanvasOverlayModel.CanvasOverlay.AddToMap | src/map-item.js:33-36 | a layer already on the map is left unchanged; otherwise it joins the map's layers and `onAdd` runs, with its first frame's outcome |
| CanvasOverlayModel.CanvasOverlay.RemoveFrom | src/map-item.js:136 | a layer not on the map is left unchanged; otherwise it leaves the map's layers, its listeners are unsubscribed and its map is cleared |
| Color.HexDigit | src/glify.js:146-158 | a digit's value is below 16 |
| Color.TrimStart | src/glify.js:152-154 | the trimmed text is no longer and does not start with white space |
| Color.DigitRun | src/glify.js:152-154 | the run covers only digits and stays within the text |
| Color.HexNotWhite | src/glify.js:152-154 | a digit is never white space |
| Color.ParseFromDigit | src/glify.js:152-154 | text starting at a digit (and no 0x prefix) is parsed as its digit run |
| Color.PairPastEnd | src/glify.js:154 | a pair read past the end of the text parses only the digit that is there |
| Color.FromHex | src/glify.js:146-158 | the result is null exactly when the text is shorter than 6; otherwise an object with keys r, g, b |
| Color.ParseTwoDigits | src/glify.js:152-154 | two hex digits parse to 16·a + b |
| Color.Component | src/glify.js:152-154 | each colour component lies in [0, 1] |
| Color.PairOfDigits | src/glify.js:152-154 | a pair of digits divided by 255 is that component |
| Color.FromHexSixDigits | src/glify.js:146-158 | six hex digits, with or without '#', give the three components |
| Color.SixDigitPairs | src/glify.js:152-155 | the three pairs of six digits are the r, g and b components |
| Color.FromHexHash | src/glify.js:149-151 | a leading '#' does not change the colour |
| Color.FromHexFiveDigitsWithHash | src/glify.js:147-155 | "#12345" passes the length test, and its blue component comes from the single last digit |
| Color.FromHexHashFiveDigits | src/glify.js:147-155 | any '#' and five hex digits pass the length test; red and green come from the digit pairs and blue from the single last digit |
| Color.FromHexNotHex | src/glify.js:146-158 | six non-hex characters give NaN components |
| Glify.DatumLatLng | src/glify.js:18-19 | latitude is index 0 and longitude index 1 of a datum |
| Glify.PointCoords | src/glify.js:36-39 | one coordinate per dimension, missing ones undefined |
| Glify.FlattenError | src/glify.js:32 | `data[0][0].length` fails reading '0' of undefined on empty data and 'length' of undefined on an empty first ring |
| Glify.FlattenData | src/glify.js:31-47 | loop: the TypeError `FlattenError` on empty data or an empty first ring; otherwise the dimension of the first point, every ring's coordinates concatenated, and one hole offset per later ring, at its first point |
| Glify.PushRing | src/glify.js:36-39 | loop: the ring's points are appended in order, each contributing its `dim` coordinates |
| Glify.PushPoint | src/glify.js:37-38 | loop: the point's first `dim` coordinates are appended in order |
| Glify.RingCoordsLength | src/glify.js:36-39 | a ring contributes `points · dim` coordinates |
| Glify.RingCoordsAt | src/glify.js:36-39 | coordinate d of point j sits at `j·dim + d` |
| Glify.FlattenedLength | src/glify.js:34-44 | the vertex array holds `dim` entries per point of every ring |
| Glify.PointCountPrefix | src/glify.js:40-43 | a prefix holds no more points than the whole |
| Glify.PointCountStep | src/glify.js:40-43 | a prefix one ring longer has the next ring's points more |
| Glify.FlattenedAt | src/glify.js:34-44 | point j of ring i sits right after all earlier rings' points |
| Glify.HoleOffsetsNondecreasing | src/glify.js:40-43 | the hole offsets never decrease |
| Glify.VectorDistance | src/glify.js:133-135 | the distance is never negative |
| Glify.LocationDistance | src/glify.js:136-144 | the pixel distance is never negative and is zero for points that project alike |
| Glify.LocationDistanceSymmetric | src/glify.js:136-144 | the distance is symmetric |
| Glify.PointInCircleMeaning | src/glify.js:77-80 | the test holds exactly when the squared distance is at most the squared radius |
| Glify.PointInCircleSymmetric | src/glify.js:77-80 | the centre and the checked point may be swapped |
| Glify.PointInCircleBoundary | src/glify.js:77-80 | points on the circle count as inside |
| Glify.PointInCircleNegatedRadius | src/glify.js:77-80 | a negative radius acts as its absolute value |
| Glify.ClosestIndex | src/glify.js:127-131 | the chosen index is in range |
| Glify.ClosestIndexMinimal | src/glify.js:127-131 | no candidate is nearer than the chosen one |
| Glify.ClosestIndexLastTie | src/glify.js:127-131 | every later candidate is strictly farther: ties go to the last one |
| Glify.Closest | src/glify.js:124-132 | null exactly for no candidates; otherwise one of the candidates |
| Glify.ClosestSingle | src/glify.js:124-132 | a single candidate is the answer |
| Glify.ClosestIsLastMinimal | src/glify.js:124-132 | the answer is a candidate at minimal distance, with every later one strictly farther |
| Glify.Registered | src/glify.js:62-64 | the map is registered, and so is every map registered before |
| Glify.RegisteredDistinct | src/glify.js:62-64 | registration keeps the maps distinct |
| Glify.RegisteredIdempotent | src/glify.js:62-64 | registering a map twice is registering it once |
| Glify.RegisteredOnly | src/glify.js:62-64 | nothing else is registered |
| Glify.ClickRegistry.constructor | src/glify.js:61 | no map is registered |
| Glify.ClickRegistry.SetupClick | src/glify.js:62-76 | the map is registered once and gains one click listener, only on its first registration; nothing else about it changes |
| Glify.ClassTryClick | src/glify.js:67 | a static `tryClick` is found only when the class has a function of that name; otherwise a TypeError |
| Glify.ClassListenerThrows | src/glify.js:65-74 | the listener's call on the handler class throws, since the class has no static `tryClick` |
| Grid.Quantise | src/points.js:110 | the cell of a coordinate is its hundredths rounded as `toFixed(2)` rounds: the magnitude to the nearest hundredth, halves away from zero, then signed |
| Grid.SameCell | src/points.js:110 | two coordinates share a cell exactly when `toFixed(2)` writes them alike, or both as zero ("-0.00" and "0.00") |
| Grid.QuantiseTies | src/points.js:110 | -0.125 is "-0.13", cell -13, and 0.125 is "0.13", cell 13 |
| Grid.QuantiseHalfUp | src/points.js:110 | away from negative ties, the cell is the hundredths rounded half up |
| Grid.QuantiseShift | src/points.js:212-215 | shifting a coordinate by k hundredths shifts its cell by k, unless it is a tie that the shift takes across zero |
| Grid.Window | src/points.js:212-215 | the scan visits seven cells on each axis |
| Grid.WindowContiguous | src/points.js:212-215 | for a coordinate that is no tie, or whose window does not cross zero, the seven cells are its own cell's -3 to +3 |
| Grid.InWindowNear | src/points.js:212-215 | for such a click, a cell is visited exactly when it is within 3 cells of the click's on both axes |
| Grid.WindowSkipsZero | src/points.js:212-215 | a click at latitude -0.005 visits cells -4 to -1 and 1 to 3, skipping cell 0 |
| Grid.ToFixed2 | src/points.js:110 | the as-written text key: a sign flag exactly for negative values, and the rounded hundredths of the magnitude |
| Grid.ToFixed2SplitsZero | src/points.js:110 | as written, -0.001 and 0.001 get different keys ("-0.00" and "0.00"), and a scan centred at 0 never visits "-0.00" |
| Grid.BucketsStep | src/points.js:110-118 | adding one datum appends it to its own bucket, or opens that bucket |
| Grid.Bucket | src/points.js:114-118 | a bucket is no larger than the data |
| Grid.BucketsAgree | src/points.js:108-129 | the lookup's keys are the data's keys, and each bucket holds the data of that key, in order |
| Grid.BucketEmpty | src/points.js:114-118 | a key that no datum has has no entries |
| Grid.BucketMembers | src/points.js:114-118 | a bucket holds only data of its own key |
| Grid.BucketContains | src/points.js:114-118 | every datum is in its own bucket |
| Grid.BucketAppend | src/points.js:108-129 | the buckets of concatenated data are concatenated |
| Grid.TotalStep | src/points.js:114-118 | one more datum adds one per occurrence of its key |
| Grid.OccursOnce | src/points.js:114-118 | a key of a distinct key list occurs once |
| Grid.OccursNever | src/points.js:114-118 | a missing key occurs never |
| Grid.BucketSizesSum | src/points.js:108-129 | the buckets partition the data: their sizes sum to the data's size |
| Grid.TotalEmpty | src/points.js:114-118 | no data leaves every bucket empty |
| Grid.RowHas | src/points.js:212-224 | a scan row collects every match of its cells |
| Grid.RowOnly | src/points.js:212-224 | a scan row collects nothing outside its cells |
| Grid.RowsHas | src/points.js:211-225 | the scan collects every match in its window |
| Grid.RowsOnly | src/points.js:211-225 | the scan collects nothing outside its window |
| Grid.ScanExact | src/points.js:198-229 | a datum is among the matches exactly when it is in the data and its cell is one the scan visits around the click, on both axes |
| Grid.ScanNear | src/points.js:198-229 | for a click that is no tie near zero, a datum is among the matches exactly when it is in the data and its cell is within 3 cells of the click's, on both axes |
| Grid.ScanCell | src/points.js:212-224 | whatever the scan collects comes from a visited cell |
| Grid.CellScanned | src/points.js:212-224 | whatever is in a visited cell is collected |
| Grid.BucketCellHolds | src/points.js:108-129 | a bucket of the lookup holds data of that key only |
| Grid.BucketCellHas | src/points.js:108-129 | every datum is in the bucket of its own key |
| Grid.ScanEmpty | src/points.js:198-225 | an empty lookup matches nothing |
| Grid.RowEmpty | src/points.js:212-224 | an empty lookup gives empty rows |
| Grid.RowsEmpty | src/points.js:211-225 | an empty lookup gives no matches |
| Grid.ScanNeighbourhood | src/points.js:198-225 | the nested loops collect `Scan` of the lookup: the 7x7 cells in order, each bucket in order |
| Grid.ScanRow | src/points.js:212-224 | loop: the inner loop appends the 7 cells of one latitude row, each keyed by its step's longitude, in order |
| Grid.PushAll | src/points.js:217-223 | loop: a bucket's data are appended to the matches in order |
| Grid.LookedFound | src/points.js:198-229 | `lookup` finds nothing exactly when there is no data, and otherwise finds a datum |
| Grid.LookedFallsBack | src/points.js:228 | with no datum in a visited cell, all the data is searched |
| HandlerBase.PixelValuesOfPixel | src/points.js:112 | the pixel of a datum's coordinates is the projection's x and y |
| HandlerBase.PixelValues | src/lines.js:159-178 | a vertex's position is two values, as for each corner here and for each point at points.js:112 and shapes.js:140 |
| HandlerBase.ResolveColour | src/points.js:90-106 | the colour setting resolves to a constant, a generator, or the colour error |
| HandlerBase.ResolveColourCases | src/points.js:90-106 | the setting fails exactly when `tryFunction` yields null; a function is a generator |
| HandlerBase.ConstantColourRejected | src/points.js:90-106 | a constant {r,g,b} colour object is rejected |
| HandlerBase.DefaultColourRejected | src/points.js:90-106 | the default name 'randomColor' is rejected unless the handler defines it |
| HandlerBase.Components | src/points.js:125 | reading r, g, b fails exactly on undefined/null and otherwise gives three values |
| HandlerBase.ComponentsOfRgb | src/points.js:125 | an {r,g,b} object gives its components |
| HandlerBase.ComponentsOfHex | src/glify.js:146-158 | a hex colour gives its three components |
| HandlerBase.PointSize | src/points.js:144-152 | an explicit size wins; otherwise `max(zoom - 4, 1)` |
| HandlerBase.Hit | src/points.js:265-268 | a click answer is never undefined: the callback's answer, or true when it answered undefined |
| HandlerBase.PointClickOutcome | src/points.js:231-269 | a click answers undefined exactly when the handler is inactive, on another map, without a callback, without a found point, or out of radius; otherwise it is `Hit` of the callback's answer |
| MapItemModel.AbstractCheck | src/map-item.js:54-70 | construction passes exactly when the subclass has defaults, render, drawOnCanvas and resetVertices; otherwise a TypeError |
| MapItemModel.AbstractCheckOrder | src/map-item.js:54-70 | a missing `render` is reported first |
| MapItemModel.DirectRejected | src/map-item.js:16-18 | constructing the base class directly is a TypeError |
| MapItemModel.ValidationCases | src/map-item.js:15-31 | construction passes exactly when a subclass passes the method check and has data and a map; missing data fails |
| MapItemModel.ValidationIgnoresDefaults | src/map-item.js:20-27 | validation reads the caller's settings, not the defaults |
| MapItemModel.WithClassName | src/map-item.js:43-45 | a falsy className leaves the canvas class as it is |
| MapItemModel.ClassNameAppended | src/map-item.js:43-45 | a className is appended after one space |
| MapItemModel.MapItem.constructor | src/map-item.js:5-13 | no settings, no instances, active, no layer, a fresh matrix |
| MapItemModel.MapItem.Initialize | src/map-item.js:15-52 | up to the closing `render()`: the error of each failed check, in order; otherwise merged settings, this instance registered, the layer added to the map with the class name, and the click set up |
| MapItemModel.MapItem.AttachLayer | src/map-item.js:33-45 | a new canvas overlay joins the map's layers, whose listeners gain its subscriptions; its new canvas is classed by zoom animation plus `className`; its first frame completes, leaving nothing pending |
| MapItemModel.MapItem.Setup | src/map-item.js:72-77 | with a click callback, the settings' map is registered once with `L.glify`, and a `map` setting that is not a map throws a TypeError; without one nothing is registered |
| MapItemModel.MapItem.AddTo | src/map-item.js:129-133 | up to the closing `render()`: a TypeError without a layer or a map; a layer already on the target map is left as it is, overlay and canvas unchanged; otherwise it joins the map, its canvas is sized and classed by zoom animation, the map's listeners gain its subscriptions, and its first frame's outcome is the result; active after success, unchanged after failure |
| MapItemModel.MapItem.Remove | src/map-item.js:135-139 | a TypeError without a layer or a map; a layer on the settings' map leaves it, is unsubscribed and loses its map; one not there is left as it is; inactive on success |
| PointsModel.FirstUncoloured | src/points.js:108-129 | the first vertex whose colour has no components, or the count |
| PointsModel.FirstUncolouredIs | src/points.js:108-129 | the first uncoloured vertex is where the loop stops |
| PointsModel.PointVertsStep | src/points.js:125 | one more point appends its five values |
| PointsModel.PointVertsLength | src/points.js:108-129 | five values per point |
| PointsModel.PointVertsAt | src/points.js:112-125 | point i's five values are its pixel and its colour |
| PointsModel.PointsResetSucceeds | src/points.js:80-132 | reset passes exactly when the colour resolves and every vertex has components; then the buffer is `PointVerts` and the lookup is `Buckets` of the data |
| PointsModel.ConstantColourVerts | src/points.js:101-106 | a constant colour colours every vertex alike |
| PointsModel.PointsResetStops | src/points.js:120-125 | reset fails at the first uncoloured vertex, keeping what was pushed before |
| PointsModel.PixelsToWebGL | src/points.js:175-177 | a 16-entry matrix |
| PointsModel.FrameMatrix | src/points.js:175-181 | a 16-entry matrix |
| PointsModel.FrameMatrixMapsCanvas | src/points.js:175-181 | the frame matrix maps a pixel to clip space, and the top-left offset to (-1, 1) |
| PointsModel.PixelsToWebGLApply | src/points.js:175-177 | the clip matrix sends the canvas pixel (c, d) to (2c/width - 1, 1 - 2d/height) |
| PointsModel.FrameMatrixAt | src/points.js:175-181 | the frame matrix sends a world pixel to the clip position of its canvas pixel, scale times its offset from the top-left |
| PointsModel.Points.constructor | src/map-item.js:5-13 | the handler keeps its item and settings, with an empty buffer and lookup |
| PointsModel.Points.ResetVertices | src/points.js:80-132 | the buffer, lookup and outcome are `PointsReset` of the settings |
| PointsModel.Points.FillVertices | src/points.js:108-129 | loop: the buffer holds the vertices of the data before the first one whose colour has no components; the lookup holds the buckets of the data up to and including that one; the outcome passes exactly when no datum throws, and is otherwise that datum's TypeError |
| PointsModel.Points.Render | src/points.js:39-78 | reset, then on success one redraw request |
| PointsModel.Points.SetData | src/points.js:139-142 | only the data setting changes |
| PointsModel.Points.CurrentPointSize | src/points.js:144-152 | `PointSize` of the size setting at the map's zoom |
| PointsModel.Points.DrawOnCanvas | src/points.js:158-191 | without a GL context nothing happens; otherwise the matrix chain is set and one point per datum is drawn at the point size |
| PointsModel.Points.Lookup | src/points.js:198-229 | the closest datum among the matches, or among all data |
| PointsModel.Points.TryClick | src/points.js:231-269 | the click result of this handler (its only instance) |
| PointsModel.ClickAfterReset | src/points.js:231-269 | after reset, a click on non-empty data finds a point and hits when it is within the radius |
| ImagesModel.Pow2 | src/images.js:130-132 | powers of two are at least 1 |
| ImagesModel.Uint32 | src/images.js:131 | a 32-bit bit-operator operand is below 2^32 |
| ImagesModel.Pow2Of32 | src/images.js:131 | 2^32 is the 32-bit range |
| ImagesModel.Pow2Add | src/images.js:131 | powers of two multiply by adding exponents |
| ImagesModel.BitAndZero | src/images.js:131 | x & 0 is 0 |
| ImagesModel.BitAndSelf | src/images.js:131 | x & x is x |
| ImagesModel.BitAndPredecessor | src/images.js:131 | v & (v-1) is 0 exactly for powers of two |
| ImagesModel.IsPowerOf2Exact | src/images.js:130-132 | `isPowerOf2` accepts 0 and, above it, exactly the powers of two |
| ImagesModel.IsPowerOf2Zero | src/images.js:130-132 | `isPowerOf2(0)` is true, since 0 & -1 is 0 |
| ImagesModel.IsPowerOf2Positive | src/images.js:130-132 | below 2^32, a positive value passes exactly when it is a power of two |
| ImagesModel.BitAnd0 | src/images.js:131 | 0 & x is 0 |
| ImagesModel.PowersOfTwoAccepted | src/images.js:130-132 | every 32-bit power of two is accepted |
| ImagesModel.Pow2Monotone | src/images.js:130-132 | the powers of two increase |
| ImagesModel.Pow2IsPowerOfTwo | src/images.js:130-132 | 2^k is a power of two |
| ImagesModel.OddRejected | src/images.js:130-132 | odd sizes above 1 are rejected |
| ImagesModel.LoadTexture | src/images.js:95-103 | the texture starts as one placeholder pixel |
| ImagesModel.OnImageLoad | src/images.js:106-124 | mipmaps exactly when both sides are powers of two; otherwise clamp to edge with linear filtering |
| ImagesModel.OnImageLoadSizes | src/images.js:114-122 | power-of-two images get mipmaps, and odd sides do not |
| LinesModel.PlanarCorners | src/lines.js:130-156 | four corners per segment |
| LinesModel.CornersMirror | src/lines.js:130-156 | the corners are the segment ends plus and minus the half-width normal |
| LinesModel.CornerVertex | src/lines.js:176-200 | five values per corner |
| LinesModel.Vertices | src/lines.js:176-200 | five values per corner |
| LinesModel.VerticesAt | src/lines.js:176-200 | corner k's five values sit at 5k |
| LinesModel.SegmentCorners | src/lines.js:112-201 | four corners per segment |
| LinesModel.SegmentVerts | src/lines.js:112-201 | 20 values per segment |
| LinesModel.SegmentLayout | src/lines.js:176-200 | the four corners take the segment's two colours as the source lays them out |
| LinesModel.CornerColourAt | src/lines.js:176-200 | each pushed vertex ends with its endpoint's three colour components |
| LinesModel.FromLatLonError | src/lines.js:115-116 | `fromLatLon` throws a RangeError exactly outside latitudes -80 to 84 and longitudes -180 to 180 |
| LinesModel.ToLatLonError | src/lines.js:130-156 | `toLatLon` throws a RangeError exactly outside eastings [100000, 1000000) and northings [0, 10000000] |
| LinesModel.CornersError | src/lines.js:130-156 | the corners convert exactly when each of the four does; a failure is a RangeError |
| LinesModel.SegmentError | src/lines.js:112-157 | a segment converts exactly when both endpoints lie in the UTM band and its four offset corners within UTM's ranges; a failure is a RangeError |
| LinesModel.SegmentPlanar | src/lines.js:115-156 | four planar corners per segment |
| LinesModel.FirstFailedSegment | src/lines.js:203-234 | the first segment that does not convert or whose colour lacks components, or the count; every earlier segment converts and is coloured |
| LinesModel.FirstFailedSegmentIs | src/lines.js:203-234 | the loop stops at the first failed segment |
| LinesModel.AllDrawnStop | src/lines.js:203-234 | when all segments convert and are coloured, the loop runs to the end |
| LinesModel.AllDrawnStep | src/lines.js:203-220 | one more drawn segment extends the drawn prefix |
| LinesModel.PushedQuadsFailAt | src/lines.js:203-234 | a segment that fails after s drawn ones ends the reset with its failure and the first s quads |
| LinesModel.LinesResetOutcome | src/lines.js:82-237 | with a resolved colour and two points or more, the outcome is the failure of the first failed segment, or success |
| LinesModel.PointStartsSegment | src/lines.js:203-231 | every point is the first endpoint of a segment |
| LinesModel.LinesResetOutOfRange | src/lines.js:115-116 | with every quad coloured, a single point outside the UTM band makes the reset fail with a RangeError |
| LinesModel.RgbOf | src/lines.js:208-214 | the rgb triple read from a colour |
| LinesModel.SegmentRgb | src/lines.js:208-228 | the segment's two colours' components |
| LinesModel.Quad | src/lines.js:112-201 | 20 values per quad |
| LinesModel.QuadAfter | src/lines.js:112-201 | 20 values per quad |
| LinesModel.QuadIs | src/lines.js:203-234 | segment s's quad joins points s and s+1, and the closing one joins the last point to the second-last |
| LinesModel.SegmentRgbs | src/lines.js:203-234 | one colour pair per coloured segment |
| LinesModel.SegmentRgbsAt | src/lines.js:203-234 | entry s is segment s's colour pair |
| LinesModel.LineVertsLength | src/lines.js:203-234 | 20 values per segment |
| LinesModel.LineVertsAt | src/lines.js:203-234 | segment s's 20 values sit at 20s |
| LinesModel.KeptBlock | src/lines.js:203-234 | pushing more keeps what was pushed before |
| LinesModel.LastOfAppend | src/lines.js:203-234 | what was pushed last sits at the end |
| LinesModel.QuadColours | src/lines.js:176-200 | the first two corners carry the first colour and the last two carry the second |
| LinesModel.QuadColoursInBuffer | src/lines.js:203-234 | in the buffer, each segment's corners carry that segment's colours |
| LinesModel.BlockColours | src/lines.js:176-200 | a quad's colour slots survive being placed in the buffer |
| LinesModel.SubSlice | src/lines.js:176-200 | a slice of a placed quad is the slice of the quad |
| LinesModel.ColourCallOrder | src/lines.js:208-231 | segment s asks the colour function for calls 2s and 2s+1, with indices s and s+1; the closing segment asks with n-1 and then n-2 |
| LinesModel.LinesResetSucceeds | src/lines.js:82-237 | reset passes exactly when the colour resolves, there are at least 2 points, every segment converts to UTM and back and every segment is coloured; then the buffer has 20 values per point and 4 vertices per point |
| LinesModel.LinesResetTooFew | src/lines.js:222-234 | fewer than two points fail on the closing segment with nothing pushed: on the missing point, or first with a RangeError on a single point outside the UTM band |
| LinesModel.Lines.constructor | src/map-item.js:5-13 | the handler keeps its item and settings, with an empty buffer and lookup |
| LinesModel.Lines.ResetVertices | src/lines.js:82-237 | the lookup is emptied, and the buffer and outcome are `LinesReset` of the settings |
| LinesModel.Lines.PushQuads | src/lines.js:203-234 | loop: the buffer and outcome are `PushedQuads` |
| LinesModel.Lines.Lookup | src/lines.js:303-334 | the closest datum among the matches, or among all data |
| LinesModel.Lines.TryClick | src/lines.js:336-374 | the click result of this handler (its only instance) |
| LinesModel.Lines.DrawOnCanvas | src/lines.js:263-296 | with a GL context, four vertices per data point are drawn |
| LinesModel.LinesLookupFallsBack | src/lines.js:84 | since the lines lookup stays empty, `lookup` always searches all data |
| ShapesModel.TrianglePair | src/shapes.js:134-137 | two coordinates per triangle index |
| ShapesModel.Triangles | src/shapes.js:134-137 | two coordinates per index |
| ShapesModel.TriangleVertex | src/shapes.js:139-142 | five values per triangle vertex |
| ShapesModel.TriangleVerts | src/shapes.js:139-142 | five values per vertex |
| ShapesModel.TrianglesAt | src/shapes.js:134-137 | index j's pair sits at 2j |
| ShapesModel.TriangleVertsAt | src/shapes.js:139-142 | vertex j's five values sit at 5j |
| ShapesModel.FeatureVerts | src/shapes.js:129-142 | five values per earcut index |
| ShapesModel.FeatureVertex | src/shapes.js:129-142 | vertex j is the pixel of index j's coordinates, with the feature's colour |
| ShapesModel.Holes | src/glify.js:40-43 | one hole offset per ring after the first |
| ShapesModel.FlatOf | src/glify.js:31-47 | flattening fails exactly on an empty ring list or an empty first ring, reading '0' of undefined for the first and 'length' of undefined for the second |
| ShapesModel.FeatureStep | src/shapes.js:119-143 | a feature pushes its triangles in its colour; it fails on a bad flatten or a colour without components |
| ShapesModel.PushedCompletes | src/shapes.js:119-143 | the loop passes exactly when every feature does |
| ShapesModel.CompletesLast | src/shapes.js:119-143 | the features complete exactly when all but the last do and the last one's pass does |
| ShapesModel.PushedLength | src/shapes.js:119-143 | five values per earcut index over all features |
| ShapesModel.ShapesResetSucceeds | src/shapes.js:86-146 | reset passes exactly when the colour resolves and every feature completes; the buffer then has five values per index |
| ShapesModel.FeatureColourCall | src/shapes.js:125-127 | feature k's colour is the k-th call of the colour function, with no arguments |
| ShapesModel.EmptyFeatureNoColour | src/shapes.js:131-142 | a feature without triangles pushes nothing |
| ShapesModel.ClickFoldLastHit | src/shapes.js:194-206 | the last hitting target decides the click; with no hit the answer is true |
| ShapesModel.ShapeClickNeverUndefined | src/shapes.js:189-207 | a Shapes click answer is never undefined |
| ShapesModel.ShapeClickSingle | src/shapes.js:189-207 | for one target: ineligible gives true, no lookup throws, and otherwise its hit result |
| ShapesModel.Shapes.constructor | src/map-item.js:5-13 | the handler keeps its item and settings, with an empty buffer and no polygon lookup |
| ShapesModel.Shapes.ResetVertices | src/shapes.js:86-146 | the polygon lookup is built, and the buffer and outcome are `ShapesReset` |
| ShapesModel.Shapes.PushFeatures | src/shapes.js:119-143 | loop: the buffer and outcome are `Pushed` |
| ShapesModel.Shapes.PushFeature | src/shapes.js:119-143 | one feature's vertices are `FeatureStep` |
| ShapesModel.Shapes.TrianglesOf | src/shapes.js:134-137 | loop: the triangle coordinates are `Triangles` |
| ShapesModel.Shapes.PushTriangles | src/shapes.js:139-142 | loop: nothing for no triangles, the colour error without components, and otherwise `TriangleVerts` |
| ShapesModel.Shapes.TryClick | src/shapes.js:189-207 | the click result of this handler (its only instance) |
| ShapesModel.Shapes.DrawOnCanvas | src/shapes.js:152-187 | with a GL context, one vertex per five buffer values is drawn |
| ShapesModel.ClickAll | src/shapes.js:189-207 | loop: `ShapeClickResult` over the targets |
| ShapesModel.ClickFoldErrorStays | src/shapes.js:194-204 | once the loop throws, the error propagates |
| ShapesModel.PushedStops | src/shapes.js:119-143 | once a feature fails, nothing after it is pushed |
| ShapesModel.FlatIs | src/glify.js:31-47 | `flattenData`'s result is `FlatOf` |
| GLMapModel.Dispatched | src/gl-map.js:25-36 | a defined Points answer is returned; no Points handler throws |
| GLMapModel.PointsFirst | src/gl-map.js:27-30 | once Points answers, Shapes is not consulted |
| GLMapModel.ShapesSecond | src/gl-map.js:32-35 | when Points answers undefined, the Shapes answer is returned |
| GLMapModel.DispatchedDefined | src/gl-map.js:25-36 | a click that does not throw is answered with a value |
| GLMapModel.GLMap.constructor | src/gl-map.js:6-10 | no maps, no handlers |
| GLMapModel.GLMap.SetPoints | src/gl-map.js:12-15 | the new Points handler replaces the old one |
| GLMapModel.GLMap.SetShapes | src/gl-map.js:17-20 | the new Shapes handler replaces the old one |
| GLMapModel.GLMap.SetupClick | src/gl-map.js:22-38 | the map is registered once and gains one click listener, only on its first registration; nothing else about it changes |
| GLMapModel.GLMap.Click | src/gl-map.js:25-36 | the listener's answer is `Dispatched` of the two handlers' answers |
| GLMapModel.GLMap.AskPoints | src/gl-map.js:27 | the Points handler's `tryClick` answer |
| GLMapModel.GLMap.AskShapes | src/gl-map.js:32 | the Shapes handler's `tryClick` answer, with that handler as the only target |

## Left out

- WebGL: shader compilation, `attachShaderVars`, buffers and the draw calls themselves. Each `drawOnCanvas` returns what it would draw.
- Asynchronous work: `requestAnimFrame` and image loading. A frame is the explicit step `CanvasOverlay.RedrawFrame`, and `OnImageLoad` is a function of the image size.
- `latLonToPixel`, the UTM conversion and the line normals: these are abstract functions (`Projection`, `Geometry`). Their domains are modelled: `FromLatLonError` and `ToLatLonError` (with their four RangeError constants) take their bounds and messages from the utm package's documented range checks; that package is not part of this model and they were not compared with its source, and the zone `toLatLon` receives is the one `fromLatLon` returned, so its zone checks are taken to pass. `Math.sqrt` is avoided; `vectorDistance` is modelled as the squared distance, which orders candidates the same way.
- A map's loaded state: Leaflet's `addLayer` defers `onAdd` until the map is ready. `AddToMap` runs it at once, so an overlay on a map that is not yet loaded, whose frames throw for want of a map, is not modelled there (`RedrawFrame` models such a frame).
- Calls that throw: which user functions throw is a parameter (`throwing`) of `RedrawFrame`, `OnAdd`, `AddToMap` and `MapItem.AddTo`. In `MapItem.AttachLayer` it is empty, since `this.gl` is not set yet and every `drawOnCanvas` returns at once.
- external libraries: `earcut` and `polygon-lookup` are parameters (`Earcut`, `PolygonSearch`).
- MapItemModel.MapItem.Initialize, MapItemModel.MapItem.AddTo: the trailing `render()` of the constructor (map-item.js:50-51) and of `addTo` (map-item.js:131) is not composed into these members, since the base class does not know its handler. `PointsModel.Points.Render` models that step for Points: a reset, a redraw request on success, and any colour error the reset throws, which for `addTo` comes after `active` is set.
- Floating point: coordinates are exact, so `toFixed(2)` rounds the exact decimal value (a double near a tie may round the other way), the scan's `+= 0.01` steps are exact, and its loops run seven times on each axis. `ToFixed2` models the sign of the text key, as a finding.
- `color.random` and `color.pallet`: random colours for the default; there is no randomness in the model.
- DOM work: pane insertion, `setPosition`, `_animateZoom`, the CSS transform text, `debugPoint`, `params`, `eachVertex` callbacks.
- Images' texture loading is modelled by `LoadTexture` and `OnImageLoad`. Images' `resetVertices`, `setData`, `pointSize`, `lookup` and `tryClick` do what Points' do, so the Points members model them.
- Lines' `render`, `setData` and `pointSize`, and the matrix chain of Lines' and Shapes' `drawOnCanvas`: these are the same as Points'.
- `data.features` unpacking and feature-collection loading: Shapes receives its features already unpacked.
- The `instances` getters of `L.glify` and `GLMap`.
- `index.js` (re-exports) and the webpack configuration.
- MapItemModel.Validation: has no contract of its own; `ValidationCases` states it.
- PointsModel.PixelsToWebGL: requires a non-zero canvas size. A zero size would make the source divide by zero.
- HandlerBase.ResolveColour: a constant `{r, g, b}` object and the `'randomColor'` default are rejected, as `tryFunction` makes them (`ConstantColourRejected`, `DefaultColourRejected`). A constant colour therefore works only through a function or a named property of the handler. This follows the code.
- Color.FromHex: the text is a sequence of Unicode scalar values, while `hex.length` and `hex[k]` count UTF-16 code units, so a colour text containing a character outside the Basic Multilingual Plane is measured and indexed differently (`|hex| < 6 <==> Null` fails for "😀1234"); `toLowerCase`, which can change the length (as for "İ"), is not modelled either.
- PointsModel.Points.DrawOnCanvas: `scale` is a parameter standing for `Math.pow(2, zoom)`, a floating-point power the model does not compute.
- Handler members read through `this`: the Points, Images, Lines and Shapes classes as written, and `MapItem`, define no `latitudeKey`, `longitudeKey`, `latLonToPixel`, `closest`, `pointInCircle` or `flattenData`; only the `L.glify` object has them (glify.js:18-19, 31, 50, 77, 124). The handlers read them through `this` at points.js:94-95, 112, 169, 228, 255, 262, 265; images.js:148-149, 166, 223, 282, 309, 316, 319; lines.js:96-97, 159-171, 274, 333, 360, 367, 370; and shapes.js:129, 136, 140, 166. The model binds them to `L.glify`'s values (`Glify.DatumLatLng`, `Glify.Closest`, `Glify.PointInCircle`, `Glify.FlattenData` through `ShapesModel.FlatIs`, and the `Projection` parameter), which is evidently intended. As written: the `resetVertices` of Points and Images read `latLng[undefined]` and throw on any non-empty data; that of Lines throws `this.latLonToPixel is not a function` on its first segment that converts; that of Shapes throws `this.flattenData is not a function` on its first feature; every `drawOnCanvas` throws at `this.latLonToPixel` once `gl` is set; and every `lookup` throws at `this.closest`.
- Glify.ClickRegistry: one registry models both `L.glify.setupClick` and `GLMap.setupClick`; the click listener's dispatch is modelled by `GLMap.Click`.

## Findings

| source | as written | input that shows it | evidently intended | confidence | as-written member | corrected member |
|---|---|---|---|---|---|---|
| src/glify.js:65-74 | the click listener calls `L.glify.Points.tryClick` and `L.glify.Shapes.tryClick`, which are static calls on the handler classes; `tryClick` is an instance method, so the first call throws a TypeError | any click on a map passed to `L.glify.setupClick` | dispatch to the current Points handler, then the Shapes handler, as `gl-map.js` does | high, not executed | Glify.ClassListenerThrows | GLMapModel.Dispatched |
| src/points.js:110 | keys come from `toFixed(2)`, which writes small negatives as "-0.00"; the scan writes its own keys the same way, so a datum at latitude -0.001 is keyed "-0.00" while a click at 0.0 scans "0.00" | a datum at latitude -0.001 and a click at latitude 0.0 | one key per grid cell, "-0.00" merged into "0.00" with `toFixed`'s rounding otherwise kept (`Grid.SameCell`), so nearby data is scanned | medium, not executed | Grid.ToFixed2SplitsZero | Grid.ScanExact |
