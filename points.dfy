/** The Points handler: one WebGL point per datum. `resetVertices` builds
    the interleaved vertex buffer (pixel x, pixel y, r, g, b per datum) and
    the grid lookup of the data; `lookup` and `tryClick` find the datum
    under a click; `drawOnCanvas` sets up the map matrix of a frame. */
module PointsModel {
  import opened Js
  import opened Leaflet
  import opened Glify
  import opened HandlerBase
  import opened Grid
  import opened MapItemModel
  import opened MapMatrixModel
  import opened CanvasOverlayModel

  /** The settings the Points handler reads, once merged: `map`, `data`,
      `color`, `size` (None for null), `sensitivity` and `click` (None for
      null). */
  datatype PointSettings = PointSettings(
    hostMap: LeafletMap, data: seq<Datum>, color: Value, size: Option<real>,
    sensitivity: real, click: Option<PointClick>)

  /** The colour of datum i: the constant, or the i-th call `colorFn()`. */
  function VertexColour(src: ColourSource, calls: ColourCalls, i: nat): Option<seq<Value>> {
    Components(ColourAt(src, calls, i, []))
  }

  /** The first n data all get a colour with components. */
  predicate Coloured(src: ColourSource, calls: ColourCalls, n: nat) {
    forall i :: 0 <= i < n ==> VertexColour(src, calls, i).Some?
  }

  /** The datum at which `color.r` throws, or n when none does. */
  function FirstUncoloured(src: ColourSource, calls: ColourCalls, n: nat): (r: nat)
    ensures r <= n && Coloured(src, calls, r)
    ensures r < n ==> VertexColour(src, calls, r).None?
  {
    if n == 0 then 0
    else
      var k := FirstUncoloured(src, calls, n - 1);
      if k < n - 1 then k
      else if VertexColour(src, calls, n - 1).None? then n - 1
      else n
  }

  /** The failing datum is the first one without components. */
  lemma FirstUncolouredIs(src: ColourSource, calls: ColourCalls, n: nat, i: nat)
    requires i < n && Coloured(src, calls, i) && VertexColour(src, calls, i).None?
    ensures FirstUncoloured(src, calls, n) == i
  {
  }

  /** The five values `verts.push(pixel.x, pixel.y, color.r, color.g, color.b)`. */
  function PointVertex(p: Projection, d: Datum, rgb: seq<Value>): seq<Value> {
    PixelValues(p, Some(d[LatitudeKey]), Some(d[LongitudeKey])) + rgb
  }

  /** The vertex buffer of the data, in data order. */
  function PointVerts(p: Projection, src: ColourSource, calls: ColourCalls, data: seq<Datum>): seq<Value>
    requires Coloured(src, calls, |data|)
    decreases |data|
  {
    if data == [] then []
    else
      var n := |data| - 1;
      PointVerts(p, src, calls, data[..n]) + PointVertex(p, data[n], VertexColour(src, calls, n).value)
  }

  /** One more datum adds its vertex to the buffer. */
  lemma PointVertsStep(p: Projection, src: ColourSource, calls: ColourCalls, data: seq<Datum>, i: nat)
    requires i < |data| && Coloured(src, calls, i + 1)
    ensures PointVerts(p, src, calls, data[..i + 1]) ==
      PointVerts(p, src, calls, data[..i]) + PointVertex(p, data[i], VertexColour(src, calls, i).value)
  {
    assert data[..i + 1][..i] == data[..i];
  }

  /** What `resetVertices` leaves behind: its outcome, `verts` and
      `latLngLookup`. */
  datatype Reset = Reset(outcome: Outcome, verts: seq<Value>, lookup: map<GridKey, seq<Datum>>)

  /** `resetVertices()`: a colour setting that does not resolve throws before
      any datum; otherwise each datum is first added to its bucket, then
      coloured, then pushed; a colour without components throws at that
      datum, which is then in the lookup but not in the buffer. */
  function PointsReset(data: seq<Datum>, color: Value, own: map<string, Value>, calls: ColourCalls, p: Projection): Reset {
    var src := ResolveColour(color, own);
    if src.Err? then Reset(Fail(src.error), [], map[])
    else
      var stop := FirstUncoloured(src.value, calls, |data|);
      if stop == |data| then Reset(Pass, PointVerts(p, src.value, calls, data), Buckets(data))
      else
        Reset(Fail(NoComponentsError(ColourAt(src.value, calls, stop, []))),
              PointVerts(p, src.value, calls, data[..stop]), Buckets(data[..stop + 1]))
  }

  /** Five buffer entries per datum. */
  lemma {:induction false} PointVertsLength(p: Projection, src: ColourSource, calls: ColourCalls, data: seq<Datum>)
    requires Coloured(src, calls, |data|)
    ensures |PointVerts(p, src, calls, data)| == 5 * |data|
    decreases |data|
  {
    if data != [] {
      PointVertsLength(p, src, calls, data[..|data| - 1]);
    }
  }

  /** Entries 5i to 5i+4 are the pixel x and y of datum i, then the r, g and
      b of its colour. */
  lemma {:induction false} PointVertsAt(p: Projection, src: ColourSource, calls: ColourCalls, data: seq<Datum>, i: nat)
    requires Coloured(src, calls, |data|) && i < |data|
    ensures |PointVerts(p, src, calls, data)| == 5 * |data|
    ensures PointVerts(p, src, calls, data)[5 * i .. 5 * i + 5] ==
      [Num(p.pixelX(data[i][LongitudeKey])), Num(p.pixelY(data[i][LatitudeKey]))] + VertexColour(src, calls, i).value
    decreases |data|
  {
    PointVertsLength(p, src, calls, data);
    var n := |data| - 1;
    PointVertsLength(p, src, calls, data[..n]);
    var r := PointVerts(p, src, calls, data);
    var pre := PointVerts(p, src, calls, data[..n]);
    assert r == pre + PointVertex(p, data[n], VertexColour(src, calls, n).value);
    if i < n {
      PointVertsAt(p, src, calls, data[..n], i);
      assert r[5 * i .. 5 * i + 5] == pre[5 * i .. 5 * i + 5];
    } else {
      assert r[5 * i .. 5 * i + 5] == PointVertex(p, data[n], VertexColour(src, calls, n).value);
    }
  }

  /** `resetVertices` completes exactly when the colour setting resolves and
      every datum's colour has components; the buffer then holds five
      entries per datum and the lookup holds each datum under its key. */
  lemma PointsResetSucceeds(data: seq<Datum>, color: Value, own: map<string, Value>, calls: ColourCalls, p: Projection)
    ensures PointsReset(data, color, own, calls, p).outcome.Pass? <==>
      ResolveColour(color, own).Ok? && Coloured(ResolveColour(color, own).value, calls, |data|)
    ensures PointsReset(data, color, own, calls, p).outcome.Pass? ==>
      |PointsReset(data, color, own, calls, p).verts| == 5 * |data| &&
      PointsReset(data, color, own, calls, p).lookup.Keys == KeySet(data) &&
      forall key :: key in KeySet(data) ==> PointsReset(data, color, own, calls, p).lookup[key] == Bucket(data, key)
  {
    var src := ResolveColour(color, own);
    if src.Ok? && Coloured(src.value, calls, |data|) {
      PointVertsLength(p, src.value, calls, data);
      BucketsAgree(data);
    }
  }

  /** A constant colour object with components colours every datum alike. */
  lemma ConstantColourVerts(p: Projection, c: Value, calls: ColourCalls, data: seq<Datum>, i: nat)
    requires Components(c).Some? && i < |data|
    ensures Coloured(Constant(c), calls, |data|)
    ensures |PointVerts(p, Constant(c), calls, data)| == 5 * |data|
    ensures PointVerts(p, Constant(c), calls, data)[5 * i + 2 .. 5 * i + 5] == Components(c).value
  {
    PointVertsAt(p, Constant(c), calls, data, i);
    var r := PointVerts(p, Constant(c), calls, data);
    assert r[5 * i + 2 .. 5 * i + 5] == r[5 * i .. 5 * i + 5][2..];
  }

  /** A failing colour stops the buffer at the failing datum, but that datum
      is already in the lookup. */
  lemma PointsResetStops(data: seq<Datum>, color: Value, own: map<string, Value>, calls: ColourCalls, p: Projection, stop: nat)
    requires ResolveColour(color, own).Ok? && stop < |data|
    requires Coloured(ResolveColour(color, own).value, calls, stop)
    requires VertexColour(ResolveColour(color, own).value, calls, stop).None?
    ensures var r := PointsReset(data, color, own, calls, p);
      r.outcome.Fail? && r.outcome.error.TypeError? &&
      |r.verts| == 5 * stop && data[stop] in r.lookup[KeyOf(data[stop])]
  {
    var src := ResolveColour(color, own).value;
    FirstUncolouredIs(src, calls, |data|, stop);
    PointVertsLength(p, src, calls, data[..stop]);
    BucketContains(data[..stop + 1], stop);
  }

  /** The clip-space matrix `[2 / width, 0, 0, 0, 0, -2 / height, 0, 0, 0,
      0, 0, 0, -1, 1, 0, 1]` that makes one unit one canvas pixel. */
  function PixelsToWebGL(width: real, height: real): (r: seq<real>)
    requires width != 0.0 && height != 0.0
    ensures |r| == Size
  {
    [2.0 / width, 0.0, 0.0, 0.0, 0.0, -2.0 / height, 0.0, 0.0, 0.0, 0.0, 0.0, 0.0, -1.0, 1.0, 0.0, 1.0]
  }

  /** The map matrix of a frame: the clip matrix, scaled by 2^zoom and
      translated by the negated pixel of the top-left corner. */
  function FrameMatrix(width: real, height: real, scale: real, offset: Point): (r: seq<real>)
    requires width != 0.0 && height != 0.0
    ensures |r| == Size
  {
    Translated(Scaled(PixelsToWebGL(width, height), scale), -offset.x, -offset.y)
  }

  /** The clip matrix sends the canvas pixel (c, d) to (2c/width - 1, 1 - 2d/height). */
  lemma PixelsToWebGLApply(width: real, height: real, c: real, d: real)
    requires width != 0.0 && height != 0.0
    ensures Apply(PixelsToWebGL(width, height), c, d, 0) == 2.0 * c / width - 1.0
    ensures Apply(PixelsToWebGL(width, height), c, d, 1) == 1.0 - 2.0 * d / height
  {
    var P := PixelsToWebGL(width, height);
    assert Apply(P, c, d, 0) == (2.0 / width) * c + 0.0 * d + -1.0;
    assert Apply(P, c, d, 1) == 0.0 * c + (-2.0 / height) * d + 1.0;
  }

  /** A world pixel q lands at clip coordinates (2c/width - 1, 1 - 2d/height)
      where (c, d) = scale * (q - offset) is its canvas pixel. */
  lemma FrameMatrixAt(width: real, height: real, scale: real, offset: Point, x: real, y: real)
    requires width != 0.0 && height != 0.0
    ensures Apply(FrameMatrix(width, height, scale, offset), x, y, 0) == 2.0 * (scale * (x - offset.x)) / width - 1.0
    ensures Apply(FrameMatrix(width, height, scale, offset), x, y, 1) == 1.0 - 2.0 * (scale * (y - offset.y)) / height
  {
    var P := PixelsToWebGL(width, height);
    var S := Scaled(P, scale);
    var a, b := x - offset.x, y - offset.y;
    assert x + -offset.x == a && y + -offset.y == b;
    forall k | 0 <= k < 2
      ensures Apply(FrameMatrix(width, height, scale, offset), x, y, k) == Apply(P, scale * a, scale * b, k)
    {
      ApplyTranslated(S, -offset.x, -offset.y, x, y, k);
      ApplyScaled(P, scale, a, b, k);
    }
    PixelsToWebGLApply(width, height, scale * a, scale * b);
  }

  /** The frame matrix maps every world pixel to clip space as above, and
      the top-left corner of the canvas to (-1, 1). */
  lemma FrameMatrixMapsCanvas(width: real, height: real, scale: real, offset: Point, x: real, y: real)
    requires width != 0.0 && height != 0.0
    ensures Apply(FrameMatrix(width, height, scale, offset), x, y, 0) == 2.0 * (scale * (x - offset.x)) / width - 1.0
    ensures Apply(FrameMatrix(width, height, scale, offset), x, y, 1) == 1.0 - 2.0 * (scale * (y - offset.y)) / height
    ensures Apply(FrameMatrix(width, height, scale, offset), offset.x, offset.y, 0) == -1.0
    ensures Apply(FrameMatrix(width, height, scale, offset), offset.x, offset.y, 1) == 1.0
  {
    FrameMatrixAt(width, height, scale, offset, x, y);
    FrameMatrixAt(width, height, scale, offset, offset.x, offset.y);
  }

  /** The `gl.drawArrays(gl.POINTS, 0, count)` call of a frame, with the
      point size set just before it. */
  datatype PointDraw = PointDraw(count: nat, pointSize: real)

  class Points {
    /** The MapItem part of the handler: `active`, the layer and the matrix. */
    const item: MapItem
    var settings: PointSettings
    var verts: seq<Value>
    var latLngLookup: map<GridKey, seq<Datum>>

    constructor (item: MapItem, settings: PointSettings)
      ensures this.item == item && this.settings == settings
      ensures verts == [] && latLngLookup == map[]
    {
      this.item := item;
      this.settings := settings;
      verts := [];
      latLngLookup := map[];
    }

    /** `resetVertices()`. `own` holds the instance's own properties (the
        lookup of `tryFunction`), `calls` the colour function's results and
        `p` the pixel projection. */
    method ResetVertices(own: map<string, Value>, calls: ColourCalls, p: Projection) returns (outcome: Outcome)
      modifies this`verts, this`latLngLookup
      ensures Reset(outcome, verts, latLngLookup) == PointsReset(settings.data, settings.color, own, calls, p)
    {
      latLngLookup := map[];
      verts := [];
      var resolved := ResolveColour(settings.color, own);
      if resolved.Err? {
        return Fail(resolved.error);
      }
      outcome, verts, latLngLookup := FillVertices(settings.data, resolved.value, calls, p);
      assert settings.data[..|settings.data|] == settings.data;
    }

    /** The loop of `resetVertices` over the data, from an empty buffer and
        lookup, once the colour setting has resolved to `src`: it works on
        local copies and returns the buffer and lookup it built. */
    method FillVertices(data: seq<Datum>, src: ColourSource, calls: ColourCalls, p: Projection) returns (outcome: Outcome, verts: seq<Value>, lookup: map<GridKey, seq<Datum>>)
      ensures var stop := FirstUncoloured(src, calls, |data|);
        verts == PointVerts(p, src, calls, data[..stop]) &&
        (stop == |data| ==> outcome == Pass && lookup == Buckets(data[..stop])) &&
        (stop < |data| ==> (outcome == Fail(NoComponentsError(ColourAt(src, calls, stop, []))) &&
           lookup == Buckets(data[..stop + 1])))
    {
      verts, lookup := [], map[];
      var i := 0;
      while i < |data|
        invariant 0 <= i <= |data|
        invariant Coloured(src, calls, i)
        invariant verts == PointVerts(p, src, calls, data[..i])
        invariant lookup == Buckets(data[..i])
      {
        var d := data[i];
        lookup := Bucketed(lookup, d);
        BucketsStep(data, i);
        var color := ColourAt(src, calls, i, []);
        var rgb := Components(color);
        if rgb.None? {
          FirstUncolouredIs(src, calls, |data|, i);
          return Fail(NoComponentsError(color)), verts, lookup;
        }
        PointVertsStep(p, src, calls, data, i);
        verts := verts + PointVertex(p, d, rgb.value);
        i := i + 1;
      }
      assert FirstUncoloured(src, calls, |data|) == |data|;
      return Pass, verts, lookup;
    }

    /** `render()` as far as the model goes: reset the vertices, then ask
        the layer for a redraw (the uploads to the GPU are not modelled). */
    method Render(own: map<string, Value>, calls: ColourCalls, p: Projection) returns (outcome: Outcome)
      requires item.glLayer != null
      modifies this`verts, this`latLngLookup, item.glLayer
      ensures Reset(outcome, verts, latLngLookup) == PointsReset(settings.data, settings.color, own, calls, p)
      ensures outcome.Pass? ==> item.glLayer.State() == Redrawn(old(item.glLayer.State()), Undefined)
      ensures outcome.Fail? ==> item.glLayer.State() == old(item.glLayer.State())
    {
      outcome := ResetVertices(own, calls, p);
      if outcome.Pass? {
        var layer := item.glLayer.Redraw(Undefined);
      }
    }

    /** `setData(data)`: only the setting changes; the buffer and the lookup
        keep the old data until the next `render`. */
    method SetData(data: seq<Datum>) returns (self: Points)
      modifies this`settings
      ensures self == this && settings == old(settings).(data := data)
    {
      settings := settings.(data := data);
      return this;
    }

    /** `pointSize()` */
    function CurrentPointSize(): (r: real)
      reads this, settings.hostMap
      ensures r == PointSize(settings.size, settings.hostMap.zoom)
    {
      PointSize(settings.size, settings.hostMap.zoom)
    }

    /** `drawOnCanvas()`: nothing without a GL context; otherwise the map
        matrix becomes the frame matrix for the canvas size, the zoom scale
        `scale` (2 to the zoom) and the pixel of the map's top-left corner,
        and one point is drawn per datum. */
    method DrawOnCanvas(hasGl: bool, topLeft: LatLng, scale: real, p: Projection) returns (draw: Option<PointDraw>)
      requires item.glLayer != null && item.glLayer.canvas != null
      requires item.glLayer.canvas.width != 0.0 && item.glLayer.canvas.height != 0.0
      requires item.mapMatrix.buffer.Length == Size
      modifies item.mapMatrix.buffer
      ensures !hasGl ==> draw.None? && item.mapMatrix.buffer[..] == old(item.mapMatrix.buffer[..])
      ensures hasGl ==> draw == Some(PointDraw(|settings.data|, PointSize(settings.size, settings.hostMap.zoom)))
      ensures hasGl ==> (item.mapMatrix.buffer[..] ==
        FrameMatrix(item.glLayer.canvas.width, item.glLayer.canvas.height, scale, LatLonToPixel(p, topLeft.lat, topLeft.lng)))
    {
      if !hasGl {
        return None;
      }
      var canvas := item.glLayer.canvas;
      var offset := LatLonToPixel(p, topLeft.lat, topLeft.lng);
      var clip := PixelsToWebGL(canvas.width, canvas.height);
      var mapMatrix := item.mapMatrix;
      var written := mapMatrix.Set(clip);
      SetReplacesAll(old(mapMatrix.buffer[..]), clip);
      var scaled := mapMatrix.ScaleMatrix(scale);
      var translated := mapMatrix.TranslateMatrix(-offset.x, -offset.y);
      return Some(PointDraw(|settings.data|, CurrentPointSize()));
    }

    /** `lookup(coords)`: scan the 7 by 7 grid keys around the click, then
        take the closest of the matches, or of all the data when there are
        none. */
    method Lookup(coords: LatLng) returns (r: Option<Datum>)
      ensures r == Looked(latLngLookup, settings.data, coords, settings.hostMap.toLayerPoint)
    {
      var matches := ScanNeighbourhood(latLngLookup, coords.lat, coords.lng);
      var found := Closest(coords, if |matches| == 0 then settings.data else matches, settings.hostMap.toLayerPoint);
      r := if found.None? then None else Some(found.value);
    }

    /** `tryClick(e, map)` over the handler's own instance list. */
    method TryClick(e: ClickEvent, m: LeafletMap) returns (r: Value)
      ensures r == PointClickResult(item.active, settings.hostMap == m, settings.click,
        Looked(latLngLookup, settings.data, e.latlng, settings.hostMap.toLayerPoint),
        e, m.toLayerPoint, PointSize(settings.size, settings.hostMap.zoom) * settings.sensitivity)
    {
      if !item.active || settings.hostMap != m || settings.click.None? {
        return Undefined;
      }
      var point := Lookup(e.latlng);
      if point.None? {
        return Undefined;
      }
      var found := Closest(e.latlng, [point.value], m.toLayerPoint);
      if found.None? {
        return Undefined;
      }
      var xy := m.toLayerPoint(DatumLatLng(found.value));
      if PointInCircle(xy, e.layerPoint, CurrentPointSize() * settings.sensitivity) {
        var result := settings.click.value(e, found.value, xy);
        return Hit(result);
      }
      return Undefined;
    }
  }

  /** Right after a completed reset, a click on the handler's map that hits
      only depends on the data: the datum found is one of the data and the
      result is the callback's (or true). */
  lemma ClickAfterReset(data: seq<Datum>, active: bool, click: PointClick, e: ClickEvent, m: LeafletMap, size: Option<real>, sensitivity: real)
    requires |data| > 0 && active
    ensures var found := Looked(Buckets(data), data, e.latlng, m.toLayerPoint);
      found.Some? && found.value in data &&
      var r := PointClickResult(active, true, Some(click), found, e, m.toLayerPoint, PointSize(size, m.zoom) * sensitivity);
      (r == Undefined <==> !PointInCircle(m.toLayerPoint(DatumLatLng(found.value)), e.layerPoint, PointSize(size, m.zoom) * sensitivity))
  {
    LookedFound(data, e.latlng, m.toLayerPoint);
    var found := Looked(Buckets(data), data, e.latlng, m.toLayerPoint);
    PointClickOutcome(active, true, Some(click), found, e, m.toLayerPoint, PointSize(size, m.zoom) * sensitivity);
  }
}
