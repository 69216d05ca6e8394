/** What the Points, Images, Lines and Shapes handlers share: the pixel
    projection, the resolution of the `color` setting, the colour a vertex
    carries, `pointSize`, and the outcome of a point-style `tryClick`. */
module HandlerBase {
  import opened Js
  import opened Leaflet
  import opened Helpers
  import opened Glify
  import Color

  /** `latLonToPixel(latitude, longitude)`: the x pixel depends on the
      longitude only and the y pixel on the latitude only; both formulas
      (Mercator at zoom 0) are left abstract. */
  datatype Projection = Projection(pixelX: real -> real, pixelY: real -> real)

  function LatLonToPixel(p: Projection, latitude: real, longitude: real): Point {
    Point(p.pixelX(longitude), p.pixelY(latitude))
  }

  /** The pixel x and y pushed into a vertex buffer, for coordinates that
      may be `undefined` (each then gives NaN). */
  function PixelValues(p: Projection, latitude: Option<real>, longitude: Option<real>): (r: seq<Value>)
    ensures |r| == 2
  {
    [if longitude.Some? then Num(p.pixelX(longitude.value)) else NaN,
     if latitude.Some? then Num(p.pixelY(latitude.value)) else NaN]
  }

  /** With both coordinates present, the pushed values are the pixel. */
  lemma PixelValuesOfPixel(p: Projection, latitude: real, longitude: real)
    ensures PixelValues(p, Some(latitude), Some(longitude)) ==
      [Num(LatLonToPixel(p, latitude, longitude).x), Num(LatLonToPixel(p, latitude, longitude).y)]
  {
  }

  /** A colour function, as an oracle: the value it returns on its k-th call
      (counted from 0 within one `resetVertices`) with the given arguments. */
  type ColourCalls = (nat, seq<Value>) -> Value

  /** The resolved `color` setting: a value used for every vertex, or a
      function called for each colour. */
  datatype ColourSource = Constant(color: Value) | Generator(fn: Value)

  const ColourError: Error := PlainError("color is not properly defined")

  /** `color = tryFunction(settings.color, this)`, then the null check and
      the function test of `resetVertices`; `own` holds the handler's own
      properties. */
  function ResolveColour(setting: Value, own: map<string, Value>): (r: Result<ColourSource>)
    ensures r.Err? ==> r.error == ColourError
  {
    var color := TryFunction(setting, Some(own));
    if color == Null then Err(ColourError)
    else if IsFunction(color) then Ok(Generator(color))
    else Ok(Constant(color))
  }

  /** The setting is rejected exactly when it is not a function and names no
      own property of the handler, or names one that holds null; a function
      is used as the colour function. */
  lemma ResolveColourCases(setting: Value, own: map<string, Value>)
    ensures ResolveColour(setting, own).Err? <==>
      !IsFunction(setting) && (!Owns(own, setting) || own[KeyText(setting).value] == Null)
    ensures IsFunction(setting) ==> ResolveColour(setting, own) == Ok(Generator(setting))
  {
    TryFunctionNull(setting, Some(own));
  }

  /** A constant colour object is looked up as the property named
      "[object Object]", which a handler does not own: it is rejected. */
  lemma ConstantColourRejected(r: Value, g: Value, b: Value, own: map<string, Value>)
    requires "[object Object]" !in own
    ensures ResolveColour(Color.Rgb(r, g, b), own).Err?
  {
  }

  /** The default `color: 'randomColor'` names no own property of a
      handler either: without a `color` setting, `resetVertices` throws. */
  lemma DefaultColourRejected(own: map<string, Value>)
    requires "randomColor" !in own
    ensures ResolveColour(Str("randomColor"), own).Err?
  {
  }

  /** The colour of the k-th colour request. */
  function ColourAt(src: ColourSource, calls: ColourCalls, k: nat, args: seq<Value>): Value {
    if src.Generator? then calls(k, args) else src.color
  }

  /** `color.r, color.g, color.b`: a TypeError (None) when the colour is
      undefined or null; otherwise the three properties, each `undefined`
      where the colour has no such property. */
  function Components(color: Value): (r: Option<seq<Value>>)
    ensures r.None? <==> color.Undefined? || color.Null?
    ensures r.Some? ==> |r.value| == 3
  {
    match color
    case Undefined => None
    case Null => None
    case Obj(props) => Some([Property(props, "r"), Property(props, "g"), Property(props, "b")])
    case _ => Some([Undefined, Undefined, Undefined])
  }

  /** `color.r` on undefined or null. */
  function NoComponentsError(color: Value): Error {
    TypeError("Cannot read properties of " + (if color.Null? then "null" else "undefined") + " (reading 'r')")
  }

  /** An own property of an object, `undefined` when absent. */
  function Property(props: map<string, Value>, key: string): Value {
    if key in props then props[key] else Undefined
  }

  /** A colour object gives its own three components, in r, g, b order. */
  lemma ComponentsOfRgb(r: Value, g: Value, b: Value)
    ensures Components(Color.Rgb(r, g, b)) == Some([r, g, b])
  {
  }

  /** A colour parsed by `fromHex` always has components. */
  lemma ComponentsOfHex(hex: string)
    requires |hex| >= 6
    ensures Components(Color.FromHex(hex)).Some?
    ensures Components(Color.FromHex(hex)).value ==
      [Color.FromHex(hex).props["r"], Color.FromHex(hex).props["g"], Color.FromHex(hex).props["b"]]
  {
  }

  /** `pointSize()`: the `size` setting when it is not null, otherwise the
      zoom less four, but at least one pixel. */
  function PointSize(size: Option<real>, zoom: real): (r: real)
    ensures size.Some? ==> r == size.value
    ensures size.None? ==> r >= 1.0 && r >= zoom - 4.0 && (r == 1.0 || r == zoom - 4.0)
  {
    if size.Some? then size.value else if zoom - 4.0 > 1.0 then zoom - 4.0 else 1.0
  }

  /** A Leaflet mouse event: where the click is on the map and on the layer. */
  datatype ClickEvent = ClickEvent(latlng: LatLng, layerPoint: Point)

  /** The `click(e, found, xy)` callback of a point-like handler, as an
      oracle. */
  type PointClick = (ClickEvent, seq<real>, Point) -> Value

  /** `result !== undefined ? result : true` */
  function Hit(result: Value): (r: Value)
    ensures r != Undefined
    ensures result != Undefined ==> r == result
    ensures result == Undefined ==> r == Bool(true)
  {
    if result != Undefined then result else Bool(true)
  }

  /** `tryClick(e, map)` of Points, Images and Lines, whose `instances`
      hold only the handler itself: nothing unless the handler is active,
      on the clicked map and has a click callback; then the closest of the
      one lookup result, and the callback when that datum's layer point is
      within `radius` of the click. */
  function PointClickResult(active: bool, sameMap: bool, click: Option<PointClick>, point: Option<Datum>,
                            e: ClickEvent, project: LatLng -> Point, radius: real): Value
  {
    if !active || !sameMap || click.None? then Undefined
    else
      var candidates: seq<seq<real>> := if point.Some? then [point.value] else [];
      var found := if point.Some? then Closest(e.latlng, candidates, project) else None;
      if found.None? then Undefined
      else
        var xy := project(DatumLatLng(found.value));
        if PointInCircle(xy, e.layerPoint, radius) then Hit(click.value(e, found.value, xy))
        else Undefined
  }

  /** A click yields nothing exactly when the handler is not eligible, has
      no datum, or the datum lies outside the hit circle; otherwise it
      yields the callback's result, or true when that is undefined. */
  lemma PointClickOutcome(active: bool, sameMap: bool, click: Option<PointClick>, point: Option<Datum>,
                          e: ClickEvent, project: LatLng -> Point, radius: real)
    ensures PointClickResult(active, sameMap, click, point, e, project, radius) == Undefined <==>
      !active || !sameMap || click.None? || point.None? ||
      !PointInCircle(project(DatumLatLng(point.value)), e.layerPoint, radius)
    ensures (active && sameMap && click.Some? && point.Some? &&
      PointInCircle(project(DatumLatLng(point.value)), e.layerPoint, radius)) ==>
      PointClickResult(active, sameMap, click, point, e, project, radius) ==
        Hit(click.value(e, point.value, project(DatumLatLng(point.value))))
  {
    if active && sameMap && click.Some? && point.Some? {
      ClosestSingle(e.latlng, point.value, project);
    }
  }
}
