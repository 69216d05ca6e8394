/** The Shapes handler: every polygon feature is flattened, triangulated
    by `earcut` and pushed as one vertex (pixel x, pixel y, r, g, b) per
    triangle index, all in the feature's colour; `tryClick` asks the
    polygon lookup for the feature under the click. */
module ShapesModel {
  import opened Js
  import opened Leaflet
  import opened Glify
  import opened HandlerBase
  import opened MapItemModel

  /** A GeoJSON polygon feature: its rings (outer ring first), each a
      sequence of positions. */
  datatype Feature = Feature(coordinates: seq<seq<seq<real>>>)

  /** The `click(e, feature)` callback, as an oracle. */
  type ShapeClick = (ClickEvent, Feature) -> Value

  /** The settings the Shapes handler reads, once merged: `map`, the
      features of `data`, `color` and `click` (None for null). */
  datatype ShapeSettings = ShapeSettings(
    hostMap: LeafletMap, features: seq<Feature>, color: Value, click: Option<ShapeClick>)

  /** `earcut(vertices, holes, dimensions)`: the triangulation, left
      abstract, as the indices of the flattened points it returns. */
  type Earcut = Flat -> seq<nat>

  /** `search(x, y)` of a `PolygonLookup` loaded with the features: the
      feature containing the point, or None for `undefined`. */
  type PolygonSearch = (seq<Feature>, real, real) -> Option<Feature>

  /** `array[k]`, `undefined` (None) past the end. */
  function At(vertices: seq<Option<real>>, k: nat): Option<real> {
    if k < |vertices| then vertices[k] else None
  }

  /** The two values `triangles.push` receives for one earcut index: the
      entry at `longitudeKey`, then the one at `latitudeKey`, of that
      flattened point. */
  function TrianglePair(flat: Flat, index: nat): (r: seq<Option<real>>)
    ensures |r| == 2
  {
    [At(flat.vertices, index * flat.dimensions + LongitudeKey),
     At(flat.vertices, index * flat.dimensions + LatitudeKey)]
  }

  /** The `triangles` list of a feature: one pair per index, in order. */
  function Triangles(flat: Flat, indices: seq<nat>): (r: seq<Option<real>>)
    ensures |r| == 2 * |indices|
    decreases |indices|
  {
    if indices == [] then []
    else Triangles(flat, indices[..|indices| - 1]) + TrianglePair(flat, indices[|indices| - 1])
  }

  /** The vertex pushed for pair j of `triangles`: the pixel of
      `latLonToPixel(triangles[2j], triangles[2j + 1])`, then r, g, b. */
  function TriangleVertex(p: Projection, triangles: seq<Option<real>>, j: nat, rgb: seq<Value>): (r: seq<Value>)
    requires 2 * j + 1 < |triangles| && |rgb| == 3
    ensures |r| == 5
  {
    PixelValues(p, triangles[2 * j], triangles[2 * j + 1]) + rgb
  }

  /** The vertices of the first m pairs of `triangles`, in order. */
  function TriangleVerts(p: Projection, triangles: seq<Option<real>>, m: nat, rgb: seq<Value>): (r: seq<Value>)
    requires 2 * m <= |triangles| && |rgb| == 3
    ensures |r| == 5 * m
  {
    if m == 0 then [] else TriangleVerts(p, triangles, m - 1, rgb) + TriangleVertex(p, triangles, m - 1, rgb)
  }

  /** Pair j of the triangles is index j's pair. */
  lemma {:induction false} TrianglesAt(flat: Flat, indices: seq<nat>, j: nat)
    requires j < |indices|
    ensures Triangles(flat, indices)[2 * j .. 2 * j + 2] == TrianglePair(flat, indices[j])
    decreases |indices|
  {
    var n := |indices| - 1;
    var pre := Triangles(flat, indices[..n]);
    assert Triangles(flat, indices) == pre + TrianglePair(flat, indices[n]);
    if j < n {
      TrianglesAt(flat, indices[..n], j);
      assert indices[..n][j] == indices[j];
      assert Triangles(flat, indices)[2 * j .. 2 * j + 2] == pre[2 * j .. 2 * j + 2];
    } else {
      assert Triangles(flat, indices)[2 * j .. 2 * j + 2] == TrianglePair(flat, indices[n]);
    }
  }

  /** Vertex j of the buffer is pair j's vertex. */
  lemma {:induction false} TriangleVertsAt(p: Projection, triangles: seq<Option<real>>, m: nat, rgb: seq<Value>, j: nat)
    requires 2 * m <= |triangles| && |rgb| == 3 && j < m
    ensures TriangleVerts(p, triangles, m, rgb)[5 * j .. 5 * j + 5] == TriangleVertex(p, triangles, j, rgb)
  {
    var pre := TriangleVerts(p, triangles, m - 1, rgb);
    var last := TriangleVertex(p, triangles, m - 1, rgb);
    assert TriangleVerts(p, triangles, m, rgb) == pre + last;
    if j < m - 1 {
      TriangleVertsAt(p, triangles, m - 1, rgb, j);
      assert (pre + last)[5 * j .. 5 * j + 5] == pre[5 * j .. 5 * j + 5];
    } else {
      assert (pre + last)[5 * j .. 5 * j + 5] == last;
    }
  }

  /** The buffer values of one feature with colour components rgb. */
  function FeatureVerts(p: Projection, flat: Flat, indices: seq<nat>, rgb: seq<Value>): (r: seq<Value>)
    requires |rgb| == 3
    ensures |r| == 5 * |indices|
  {
    TriangleVerts(p, Triangles(flat, indices), |indices|, rgb)
  }

  /** Vertex j of a feature is the pixel of earcut index j's flattened
      point, read at `longitudeKey` then `latitudeKey` and passed to
      `latLonToPixel` in that order, followed by the feature's colour: so
      every vertex of a feature has the same colour. */
  lemma FeatureVertex(p: Projection, flat: Flat, indices: seq<nat>, rgb: seq<Value>, j: nat)
    requires |rgb| == 3 && j < |indices|
    ensures var r := FeatureVerts(p, flat, indices, rgb);
      var base := indices[j] * flat.dimensions;
      r[5 * j .. 5 * j + 2] == PixelValues(p, At(flat.vertices, base + LongitudeKey), At(flat.vertices, base + LatitudeKey)) &&
      r[5 * j + 2 .. 5 * j + 5] == rgb
  {
    var t := Triangles(flat, indices);
    var r := FeatureVerts(p, flat, indices, rgb);
    TrianglesAt(flat, indices, j);
    TriangleVertsAt(p, t, |indices|, rgb, j);
    assert t[2 * j] == t[2 * j .. 2 * j + 2][0] && t[2 * j + 1] == t[2 * j .. 2 * j + 2][1];
    assert r[5 * j .. 5 * j + 2] == r[5 * j .. 5 * j + 5][..2];
    assert r[5 * j + 2 .. 5 * j + 5] == r[5 * j .. 5 * j + 5][2..];
  }

  /** The hole offsets `flattenData` returns: before each ring after the
      first, the number of points in the rings before it. */
  function Holes(rings: seq<seq<seq<real>>>): (r: seq<nat>)
    requires |rings| >= 1
    ensures |r| == |rings| - 1
  {
    seq(|rings| - 1, i requires 0 <= i < |rings| - 1 => PointCount(rings[..i + 1]))
  }

  /** `flattenData(feature.geometry.coordinates)`: a TypeError without a
      first point. */
  function FlatOf(rings: seq<seq<seq<real>>>): (r: Result<Flat>)
    ensures r.Err? <==> |rings| == 0 || |rings[0]| == 0
    ensures r.Err? ==> r.error == FlattenError(rings)
  {
    if |rings| == 0 || |rings[0]| == 0 then Err(FlattenError(rings))
    else var dim := |rings[0][0]|; Ok(Flat(Flattened(rings, dim), Holes(rings), dim))
  }

  /** What one pass of the feature loop pushes: the feature's colour is
      requested first (call k of the colour function), then the feature is
      flattened and triangulated; its components are read at the first
      vertex, so a feature without triangles pushes nothing and never reads
      them. */
  function FeatureStep(src: ColourSource, calls: ColourCalls, p: Projection, earcut: Earcut, feature: Feature, k: nat): (r: Result<seq<Value>>)
    ensures var flat := FlatOf(feature.coordinates);
      r.Ok? ==> flat.Ok? && |r.value| == 5 * |earcut(flat.value)|
  {
    var color := ColourAt(src, calls, k, []);
    var flat := FlatOf(feature.coordinates);
    if flat.Err? then Err(flat.error)
    else
      var indices := earcut(flat.value);
      if indices == [] then Ok([])
      else if Components(color).None? then Err(NoComponentsError(color))
      else Ok(FeatureVerts(p, flat.value, indices, Components(color).value))
  }

  /** What `resetVertices` leaves behind: its outcome and `verts`. */
  datatype Reset = Reset(outcome: Outcome, verts: seq<Value>)

  /** The feature loop from an empty buffer: the features' vertices in
      feature order, up to the first feature that throws. */
  function Pushed(src: ColourSource, calls: ColourCalls, p: Projection, earcut: Earcut, features: seq<Feature>): Reset
    decreases |features|
  {
    if features == [] then Reset(Pass, [])
    else
      var k := |features| - 1;
      var before := Pushed(src, calls, p, earcut, features[..k]);
      if before.outcome.Fail? then before
      else
        var step := FeatureStep(src, calls, p, earcut, features[k], k);
        if step.Err? then Reset(Fail(step.error), before.verts) else Reset(Pass, before.verts + step.value)
  }

  /** `resetVertices()`: a colour setting that does not resolve throws
      before any feature. */
  function ShapesReset(features: seq<Feature>, color: Value, own: map<string, Value>, calls: ColourCalls, p: Projection, earcut: Earcut): Reset {
    var src := ResolveColour(color, own);
    if src.Err? then Reset(Fail(src.error), []) else Pushed(src.value, calls, p, earcut, features)
  }

  /** Every feature can be flattened and coloured where it has triangles. */
  predicate Completes(src: ColourSource, calls: ColourCalls, p: Projection, earcut: Earcut, features: seq<Feature>) {
    forall k :: 0 <= k < |features| ==> FeatureStep(src, calls, p, earcut, features[k], k).Ok?
  }

  /** The number of earcut indices of all features (each flattened). */
  function IndexCount(earcut: Earcut, features: seq<Feature>): nat
    requires forall k :: 0 <= k < |features| ==> FlatOf(features[k].coordinates).Ok?
  {
    if features == [] then 0
    else IndexCount(earcut, features[..|features| - 1]) + |earcut(FlatOf(features[|features| - 1].coordinates).value)|
  }

  /** The features complete exactly when all but the last do and the last
      one's pass does. */
  lemma CompletesLast(src: ColourSource, calls: ColourCalls, p: Projection, earcut: Earcut, features: seq<Feature>)
    requires features != []
    ensures var k := |features| - 1;
      Completes(src, calls, p, earcut, features) <==>
      Completes(src, calls, p, earcut, features[..k]) && FeatureStep(src, calls, p, earcut, features[k], k).Ok?
  {
    var k := |features| - 1;
    var pre := features[..k];
    if Completes(src, calls, p, earcut, pre) && FeatureStep(src, calls, p, earcut, features[k], k).Ok? {
      forall i | 0 <= i < |features|
        ensures FeatureStep(src, calls, p, earcut, features[i], i).Ok?
      {
        if i < k {
          assert pre[i] == features[i];
        }
      }
    }
    if Completes(src, calls, p, earcut, features) {
      forall i | 0 <= i < k
        ensures FeatureStep(src, calls, p, earcut, pre[i], i).Ok?
      {
        assert pre[i] == features[i];
      }
    }
  }

  /** The loop completes exactly when every feature's pass does. */
  lemma {:induction false} PushedCompletes(src: ColourSource, calls: ColourCalls, p: Projection, earcut: Earcut, features: seq<Feature>)
    ensures Pushed(src, calls, p, earcut, features).outcome.Pass? <==> Completes(src, calls, p, earcut, features)
    decreases |features|
  {
    if features != [] {
      PushedCompletes(src, calls, p, earcut, features[..|features| - 1]);
      CompletesLast(src, calls, p, earcut, features);
    }
  }

  /** A completed loop holds five entries per earcut index of all the
      features. */
  lemma {:induction false} PushedLength(src: ColourSource, calls: ColourCalls, p: Projection, earcut: Earcut, features: seq<Feature>)
    requires Completes(src, calls, p, earcut, features)
    ensures forall k :: 0 <= k < |features| ==> FlatOf(features[k].coordinates).Ok?
    ensures Pushed(src, calls, p, earcut, features).outcome.Pass?
    ensures |Pushed(src, calls, p, earcut, features).verts| == 5 * IndexCount(earcut, features)
    decreases |features|
  {
    PushedCompletes(src, calls, p, earcut, features);
    if features != [] {
      var k := |features| - 1;
      var pre := features[..k];
      forall i | 0 <= i < k
        ensures FeatureStep(src, calls, p, earcut, pre[i], i).Ok?
      {
        assert pre[i] == features[i];
      }
      PushedLength(src, calls, p, earcut, pre);
      assert FeatureStep(src, calls, p, earcut, features[k], k).Ok?;
    }
  }

  /** A completed reset holds five entries per earcut index across all
      features; it completes exactly when the colour setting resolves and
      every feature's pass does. */
  lemma ShapesResetSucceeds(features: seq<Feature>, color: Value, own: map<string, Value>, calls: ColourCalls, p: Projection, earcut: Earcut)
    ensures ShapesReset(features, color, own, calls, p, earcut).outcome.Pass? <==>
      ResolveColour(color, own).Ok? && Completes(ResolveColour(color, own).value, calls, p, earcut, features)
    ensures ShapesReset(features, color, own, calls, p, earcut).outcome.Pass? ==>
      (forall k :: 0 <= k < |features| ==> FlatOf(features[k].coordinates).Ok?) &&
      |ShapesReset(features, color, own, calls, p, earcut).verts| == 5 * IndexCount(earcut, features)
  {
    var src := ResolveColour(color, own);
    if src.Ok? {
      PushedCompletes(src.value, calls, p, earcut, features);
      if Completes(src.value, calls, p, earcut, features) {
        PushedLength(src.value, calls, p, earcut, features);
      }
    }
  }

  /** With a colour function, feature k is coloured by the k-th call
      `colorFn()`, with no arguments, whatever the feature holds. */
  lemma FeatureColourCall(fn: Value, calls: ColourCalls, p: Projection, earcut: Earcut, feature: Feature, k: nat)
    requires FlatOf(feature.coordinates).Ok? && earcut(FlatOf(feature.coordinates).value) != []
    requires Components(calls(k, [])).Some?
    ensures FeatureStep(Generator(fn), calls, p, earcut, feature, k) ==
      Ok(FeatureVerts(p, FlatOf(feature.coordinates).value, earcut(FlatOf(feature.coordinates).value), Components(calls(k, [])).value))
  {
  }

  /** A feature whose triangulation is empty pushes nothing, even when its
      colour has no components. */
  lemma EmptyFeatureNoColour(src: ColourSource, calls: ColourCalls, p: Projection, earcut: Earcut, feature: Feature, k: nat)
    requires FlatOf(feature.coordinates).Ok? && earcut(FlatOf(feature.coordinates).value) == []
    ensures FeatureStep(src, calls, p, earcut, feature, k) == Ok([])
  {
  }

  /** `result !== undefined ? result : true` over the instances, each
      given as (active, map, click callback, polygon lookup): an eligible
      instance (active, on the clicked map, with a callback) whose search
      finds a feature replaces the result with its callback's; searching
      an instance with no lookup is a TypeError. */
  datatype ClickTarget = ClickTarget(active: bool, hostMap: LeafletMap, click: Option<ShapeClick>, lookup: Option<seq<Feature>>)

  predicate Eligible(t: ClickTarget, m: LeafletMap) {
    t.active && t.hostMap == m && t.click.Some?
  }

  const NoLookupError: Error := TypeError("Cannot read properties of undefined (reading 'search')")

  /** The `result` variable after the forEach over the first n targets. */
  function ClickFold(targets: seq<ClickTarget>, n: nat, e: ClickEvent, m: LeafletMap, search: PolygonSearch): (r: Result<Value>)
    requires n <= |targets|
  {
    if n == 0 then Ok(Undefined)
    else
      var before := ClickFold(targets, n - 1, e, m, search);
      var t := targets[n - 1];
      if before.Err? || !Eligible(t, m) then before
      else if t.lookup.None? then Err(NoLookupError)
      else
        var feature := search(t.lookup.value, e.latlng.lng, e.latlng.lat);
        if feature.None? then before else Ok(t.click.value(e, feature.value))
  }

  /** `tryClick(e, map)` of Shapes. */
  function ShapeClickResult(targets: seq<ClickTarget>, e: ClickEvent, m: LeafletMap, search: PolygonSearch): (r: Result<Value>) {
    var folded := ClickFold(targets, |targets|, e, m, search);
    if folded.Err? then folded else Ok(Hit(folded.value))
  }

  /** Whether target k's search hits, given it is eligible and loaded. */
  predicate Hits(targets: seq<ClickTarget>, k: nat, e: ClickEvent, m: LeafletMap, search: PolygonSearch)
    requires k < |targets|
  {
    Eligible(targets[k], m) && targets[k].lookup.Some? &&
    search(targets[k].lookup.value, e.latlng.lng, e.latlng.lat).Some?
  }

  /** The callback result of a hitting target. */
  function HitResult(targets: seq<ClickTarget>, k: nat, e: ClickEvent, m: LeafletMap, search: PolygonSearch): Value
    requires k < |targets| && Hits(targets, k, e, m, search)
  {
    targets[k].click.value(e, search(targets[k].lookup.value, e.latlng.lng, e.latlng.lat).value)
  }

  /** No eligible target lacks a lookup among the first n. */
  predicate Searchable(targets: seq<ClickTarget>, n: nat, m: LeafletMap)
    requires n <= |targets|
  {
    forall k :: 0 <= k < n ==> Eligible(targets[k], m) ==> targets[k].lookup.Some?
  }

  /** When every eligible instance has a lookup, the fold keeps the
      callback result of the last hitting instance, and stays undefined
      when none hits. */
  lemma {:induction false} ClickFoldLastHit(targets: seq<ClickTarget>, n: nat, e: ClickEvent, m: LeafletMap, search: PolygonSearch)
    requires n <= |targets| && Searchable(targets, n, m)
    ensures ClickFold(targets, n, e, m, search).Ok?
    ensures (forall k :: 0 <= k < n ==> !Hits(targets, k, e, m, search)) ==>
      ClickFold(targets, n, e, m, search) == Ok(Undefined)
    ensures forall k :: (0 <= k < n && Hits(targets, k, e, m, search) &&
      (forall j :: k < j < n ==> !Hits(targets, j, e, m, search))) ==>
      ClickFold(targets, n, e, m, search) == Ok(HitResult(targets, k, e, m, search))
  {
    if n > 0 {
      ClickFoldLastHit(targets, n - 1, e, m, search);
      assert Eligible(targets[n - 1], m) ==> targets[n - 1].lookup.Some?;
      if Hits(targets, n - 1, e, m, search) {
        assert ClickFold(targets, n, e, m, search) == Ok(HitResult(targets, n - 1, e, m, search));
      } else {
        assert ClickFold(targets, n, e, m, search) == ClickFold(targets, n - 1, e, m, search);
      }
      forall k | 0 <= k < n && Hits(targets, k, e, m, search) &&
        (forall j :: k < j < n ==> !Hits(targets, j, e, m, search))
        ensures ClickFold(targets, n, e, m, search) == Ok(HitResult(targets, k, e, m, search))
      {
        if k < n - 1 {
          assert !Hits(targets, n - 1, e, m, search);
        }
      }
    }
  }

  /** `tryClick` never answers undefined: a miss is true, and so is a
      callback that returns undefined. */
  lemma ShapeClickNeverUndefined(targets: seq<ClickTarget>, e: ClickEvent, m: LeafletMap, search: PolygonSearch)
    ensures ShapeClickResult(targets, e, m, search).Ok? ==> ShapeClickResult(targets, e, m, search).value != Undefined
    ensures ShapeClickResult(targets, e, m, search).Err? <==> ClickFold(targets, |targets|, e, m, search).Err?
  {
  }

  /** The single instance of a handler's own list: outside its map, when
      inactive or without a callback the click is answered true; otherwise
      the callback's result for the feature found, or true. */
  lemma ShapeClickSingle(t: ClickTarget, e: ClickEvent, m: LeafletMap, search: PolygonSearch)
    ensures !Eligible(t, m) ==> ShapeClickResult([t], e, m, search) == Ok(Bool(true))
    ensures Eligible(t, m) && t.lookup.None? ==> ShapeClickResult([t], e, m, search) == Err(NoLookupError)
    ensures Eligible(t, m) && t.lookup.Some? ==>
      var found := search(t.lookup.value, e.latlng.lng, e.latlng.lat);
      ShapeClickResult([t], e, m, search) == Ok(if found.None? then Bool(true) else Hit(t.click.value(e, found.value)))
  {
    assert [t][0] == t;
    assert ClickFold([t], 0, e, m, search) == Ok(Undefined);
  }

  /** The `gl.drawArrays(gl.TRIANGLES, 0, count)` call of a frame, with the
      point size set just before it. */
  datatype ShapeDraw = ShapeDraw(count: nat, pointSize: real)

  class Shapes {
    const item: MapItem
    var settings: ShapeSettings
    var verts: seq<Value>
    /** `_polygonLookup`: None for null, otherwise the features it was
        loaded with. */
    var polygonLookup: Option<seq<Feature>>

    constructor (item: MapItem, settings: ShapeSettings)
      ensures this.item == item && this.settings == settings
      ensures verts == [] && polygonLookup == None
    {
      this.item := item;
      this.settings := settings;
      verts := [];
      polygonLookup := None;
    }

    /** `resetVertices()`: the lookup is loaded with the features before the
        colour setting is checked, so it is loaded even when that throws. */
    method ResetVertices(own: map<string, Value>, calls: ColourCalls, p: Projection, earcut: Earcut) returns (outcome: Outcome)
      modifies this`verts, this`polygonLookup
      ensures polygonLookup == Some(old(settings).features)
      ensures Reset(outcome, verts) == ShapesReset(old(settings).features, old(settings).color, own, calls, p, earcut)
    {
      var current := settings;
      verts := [];
      polygonLookup := Some(current.features);
      var resolved := ResolveColour(current.color, own);
      if resolved.Err? {
        return Fail(resolved.error);
      }
      var pushed;
      outcome, pushed := PushFeatures(resolved.value, calls, p, earcut, current.features);
      verts := pushed;
    }

    /** The feature loop of `resetVertices`, pushing onto the fresh buffer
        `verts` aliases. */
    method PushFeatures(src: ColourSource, calls: ColourCalls, p: Projection, earcut: Earcut, features: seq<Feature>)
      returns (outcome: Outcome, verts: seq<Value>)
      ensures Reset(outcome, verts) == Pushed(src, calls, p, earcut, features)
    {
      verts := [];
      for k := 0 to |features|
        invariant Pushed(src, calls, p, earcut, features[..k]) == Reset(Pass, verts)
      {
        assert features[..k + 1][..k] == features[..k];
        var step := PushFeature(src, calls, p, earcut, features[k], k);
        if step.Err? {
          PushedStops(src, calls, p, earcut, features, k + 1);
          return Fail(step.error), verts;
        }
        verts := verts + step.value;
      }
      assert features[..|features|] == features;
      return Pass, verts;
    }

    /** One pass of the feature loop: the colour, `flattenData`, `earcut`,
        the `triangles` loop and the push loop. */
    method PushFeature(src: ColourSource, calls: ColourCalls, p: Projection, earcut: Earcut, feature: Feature, k: nat)
      returns (r: Result<seq<Value>>)
      ensures r == FeatureStep(src, calls, p, earcut, feature, k)
    {
      var color := ColourAt(src, calls, k, []);
      var flat := FlattenData(feature.coordinates);
      if flat.Err? {
        return Err(flat.error);
      }
      FlatIs(feature.coordinates, flat.value);
      var indices := earcut(flat.value);
      var triangles := TrianglesOf(flat.value, indices, |feature.coordinates[0][0]|);
      r := PushTriangles(p, triangles, |indices|, color);
    }

    /** The `triangles` loop: two entries per earcut index, read with the
        dimension of the feature's first point. */
    method TrianglesOf(flat: Flat, indices: seq<nat>, dim: nat) returns (triangles: seq<Option<real>>)
      requires dim == flat.dimensions
      ensures triangles == Triangles(flat, indices)
    {
      triangles := [];
      for i := 0 to |indices|
        invariant triangles == Triangles(flat, indices[..i])
      {
        var index := indices[i];
        triangles := triangles + [At(flat.vertices, index * dim + LongitudeKey), At(flat.vertices, index * dim + LatitudeKey)];
        assert indices[..i + 1][..i] == indices[..i];
      }
      assert indices[..|indices|] == indices;
    }

    /** The push loop over the first `count` pairs of `triangles`: each
        pair's pixel, then the colour's components, which throw at the
        first pair when the colour is undefined or null. */
    method PushTriangles(p: Projection, triangles: seq<Option<real>>, count: nat, color: Value) returns (r: Result<seq<Value>>)
      requires 2 * count <= |triangles|
      ensures count == 0 ==> r == Ok([])
      ensures count > 0 && Components(color).None? ==> r == Err(NoComponentsError(color))
      ensures count > 0 && Components(color).Some? ==> r == Ok(TriangleVerts(p, triangles, count, Components(color).value))
    {
      var pushed: seq<Value> := [];
      for j := 0 to count
        invariant Components(color).Some? || j == 0
        invariant Components(color).Some? ==> pushed == TriangleVerts(p, triangles, j, Components(color).value)
        invariant Components(color).None? ==> pushed == []
      {
        var pixel := PixelValues(p, triangles[2 * j], triangles[2 * j + 1]);
        var rgb := Components(color);
        if rgb.None? {
          return Err(NoComponentsError(color));
        }
        pushed := pushed + pixel + rgb.value;
      }
      return Ok(pushed);
    }

    /** `tryClick(e, map)` over the handler's own instance list, which
        holds only the handler itself. */
    method TryClick(e: ClickEvent, m: LeafletMap, search: PolygonSearch) returns (r: Result<Value>)
      ensures r == ShapeClickResult([ClickTarget(item.active, settings.hostMap, settings.click, polygonLookup)], e, m, search)
    {
      r := ClickAll([ClickTarget(item.active, settings.hostMap, settings.click, polygonLookup)], e, m, search);
    }

    /** The vertex count of `drawArrays(TRIANGLES, 0, verts.length / 5)`
        and the point size `max(zoom - 4, 1)`, or None without a GL
        context. */
    method DrawOnCanvas(hasGl: bool) returns (draw: Option<ShapeDraw>)
      ensures hasGl <==> draw.Some?
      ensures hasGl ==> draw.value == ShapeDraw(|verts| / 5, PointSize(None, settings.hostMap.zoom))
    {
      if !hasGl {
        return None;
      }
      return Some(ShapeDraw(|verts| / 5, PointSize(None, settings.hostMap.zoom)));
    }
  }

  /** The forEach of `tryClick`, then the undefined-to-true answer. */
  method ClickAll(targets: seq<ClickTarget>, e: ClickEvent, m: LeafletMap, search: PolygonSearch) returns (r: Result<Value>)
    ensures r == ShapeClickResult(targets, e, m, search)
  {
    var result := Undefined;
    for k := 0 to |targets|
      invariant ClickFold(targets, k, e, m, search) == Ok(result)
    {
      var t := targets[k];
      if !t.active || t.hostMap != m || t.click.None? {
        continue;
      }
      if t.lookup.None? {
        ClickFoldErrorStays(targets, k + 1, |targets|, e, m, search);
        return Err(NoLookupError);
      }
      var feature := search(t.lookup.value, e.latlng.lng, e.latlng.lat);
      if feature.Some? {
        result := t.click.value(e, feature.value);
      }
    }
    return Ok(Hit(result));
  }

  /** Once the fold has thrown, it stays at that error. */
  lemma {:induction false} ClickFoldErrorStays(targets: seq<ClickTarget>, k: nat, n: nat, e: ClickEvent, m: LeafletMap, search: PolygonSearch)
    requires k <= n <= |targets| && ClickFold(targets, k, e, m, search).Err?
    ensures ClickFold(targets, n, e, m, search) == ClickFold(targets, k, e, m, search)
    decreases n - k
  {
    if k < n {
      ClickFoldErrorStays(targets, k, n - 1, e, m, search);
    }
  }

  /** Once a feature throws, the later features change nothing. */
  lemma {:induction false} PushedStops(src: ColourSource, calls: ColourCalls, p: Projection, earcut: Earcut, features: seq<Feature>, k: nat)
    requires k <= |features| && Pushed(src, calls, p, earcut, features[..k]).outcome.Fail?
    ensures Pushed(src, calls, p, earcut, features) == Pushed(src, calls, p, earcut, features[..k])
    decreases |features| - k
  {
    if k < |features| {
      assert features[..k + 1][..k] == features[..k];
      PushedStops(src, calls, p, earcut, features, k + 1);
    } else {
      assert features[..k] == features;
    }
  }

  /** What `flattenData` returns is `FlatOf`'s value. */
  lemma FlatIs(rings: seq<seq<seq<real>>>, flat: Flat)
    requires |rings| > 0 && |rings[0]| > 0
    requires flat.dimensions == |rings[0][0]| && flat.vertices == Flattened(rings, flat.dimensions)
    requires |flat.holes| == |rings| - 1
    requires forall i :: 1 <= i < |rings| ==> flat.holes[i - 1] == PointCount(rings[..i])
    ensures FlatOf(rings) == Ok(flat)
  {
    var holes := Holes(rings);
    forall i | 0 <= i < |holes|
      ensures holes[i] == flat.holes[i]
    {
      assert flat.holes[(i + 1) - 1] == PointCount(rings[..i + 1]);
    }
    assert holes == flat.holes;
  }
}
