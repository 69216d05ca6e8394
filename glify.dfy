/** The shared helpers of the `L.glify` namespace: flattening polygon rings
    for triangulation, hit-testing geometry (`pointInCircle`, `closest`,
    `locationDistance`) and the registry of maps that carry a click
    listener. */
module Glify {
  import opened Js
  import opened Leaflet

  /** Positions of latitude and longitude inside a datum `[lat, lng, ...]`. */
  const LatitudeKey: nat := 0
  const LongitudeKey: nat := 1

  /** A datum of a point or line layer: an array holding at least a latitude
      and a longitude (the source reads both from every datum). */
  predicate WellFormed(datum: seq<real>) {
    |datum| >= 2
  }

  /** The data of point and line layers are well-formed arrays. */
  type Datum = d: seq<real> | WellFormed(d) witness [0.0, 0.0]

  /** `L.latLng(datum[latitudeKey], datum[longitudeKey])` */
  function DatumLatLng(datum: seq<real>): (r: LatLng)
    requires WellFormed(datum)
    ensures r.lat == datum[LatitudeKey] && r.lng == datum[LongitudeKey]
  {
    LatLng(datum[LatitudeKey], datum[LongitudeKey])
  }

  // ---------------------------------------------------------------------
  // flattenData

  /** The result object of `flattenData`, as `earcut` takes it. A vertex
      entry is None where a point has fewer coordinates than the first point
      (reading past the end of an array gives `undefined`). */
  datatype Flat = Flat(vertices: seq<Option<real>>, holes: seq<nat>, dimensions: nat)

  /** `point[d]` */
  function Coord(point: seq<real>, d: nat): Option<real> {
    if d < |point| then Some(point[d]) else None
  }

  /** The first `dim` coordinates of one point. */
  function PointCoords(point: seq<real>, dim: nat): (r: seq<Option<real>>)
    ensures |r| == dim
    ensures forall d :: 0 <= d < dim ==> r[d] == Coord(point, d)
  {
    seq(dim, d requires 0 <= d < dim => Coord(point, d))
  }

  /** The coordinates of a ring's points, point after point. */
  function RingCoords(ring: seq<seq<real>>, dim: nat): seq<Option<real>> {
    if ring == [] then [] else RingCoords(ring[..|ring| - 1], dim) + PointCoords(ring[|ring| - 1], dim)
  }

  /** The coordinates of all rings, ring after ring: the reference for
      `result.vertices`. */
  function Flattened(rings: seq<seq<seq<real>>>, dim: nat): seq<Option<real>> {
    if rings == [] then [] else Flattened(rings[..|rings| - 1], dim) + RingCoords(rings[|rings| - 1], dim)
  }

  /** The number of points in all rings. */
  function PointCount(rings: seq<seq<seq<real>>>): nat {
    if rings == [] then 0 else PointCount(rings[..|rings| - 1]) + |rings[|rings| - 1]|
  }

  /** The error of `data[0][0].length` without a first point: `data[0]` is
      undefined for an empty polygon, and `data[0][0]` for an empty first
      ring. */
  function FlattenError(data: seq<seq<seq<real>>>): (e: Error)
    requires |data| == 0 || |data[0]| == 0
    ensures e.TypeError?
    ensures e.message == "Cannot read properties of undefined (reading '" + (if |data| == 0 then "0" else "length") + "')"
  {
    TypeError("Cannot read properties of undefined (reading '" + (if |data| == 0 then "0" else "length") + "')")
  }

  /** `flattenData(data)`: `data` is a polygon's rings (outer ring first,
      then holes), each a sequence of points. The first point of the first
      ring fixes the dimension; an empty polygon or an empty first ring has
      no first point, which is a TypeError. */
  method FlattenData(data: seq<seq<seq<real>>>) returns (r: Result<Flat>)
    ensures r.Err? <==> |data| == 0 || |data[0]| == 0
    ensures r.Err? ==> r.error == FlattenError(data) && r.error.TypeError?
    ensures r.Ok? ==> r.value.dimensions == |data[0][0]|
    ensures r.Ok? ==> r.value.vertices == Flattened(data, r.value.dimensions)
    ensures r.Ok? ==> |r.value.holes| == |data| - 1
    ensures r.Ok? ==> forall i :: 1 <= i < |data| ==> r.value.holes[i - 1] == PointCount(data[..i])
  {
    if |data| == 0 || |data[0]| == 0 {
      return Err(FlattenError(data));
    }
    var dim := |data[0][0]|;
    var vertices: seq<Option<real>> := [];
    var holes: seq<nat> := [];
    var holeIndex: nat := 0;
    for i := 0 to |data|
      invariant vertices == Flattened(data[..i], dim)
      invariant |holes| == if i == 0 then 0 else i - 1
      invariant forall k :: 1 <= k < i ==> holes[k - 1] == PointCount(data[..k])
      invariant holeIndex == if i == 0 then 0 else PointCount(data[..i - 1])
    {
      vertices := PushRing(vertices, data[i], dim);
      assert data[..i + 1][..i] == data[..i] && data[..i + 1][i] == data[i];
      assert vertices == Flattened(data[..i + 1], dim);
      if i > 0 {
        PointCountStep(data, i - 1);
        holeIndex := holeIndex + |data[i - 1]|;
        holes := holes + [holeIndex];
      }
    }
    assert data[..|data|] == data;
    return Ok(Flat(vertices, holes, dim));
  }

  /** The loops over the points of one ring and their coordinates. */
  method PushRing(vertices: seq<Option<real>>, ring: seq<seq<real>>, dim: nat) returns (r: seq<Option<real>>)
    ensures r == vertices + RingCoords(ring, dim)
  {
    r := vertices;
    for j := 0 to |ring|
      invariant r == vertices + RingCoords(ring[..j], dim)
    {
      r := PushPoint(r, ring[j], dim);
      assert ring[..j + 1][..j] == ring[..j];
    }
    assert ring[..|ring|] == ring;
  }

  /** `for (d = 0; d < dim; d++) result.vertices.push(data[i][j][d])` */
  method PushPoint(vertices: seq<Option<real>>, point: seq<real>, dim: nat) returns (r: seq<Option<real>>)
    ensures r == vertices + PointCoords(point, dim)
  {
    r := vertices;
    for d := 0 to dim
      invariant r == vertices + PointCoords(point, dim)[..d]
    {
      r := r + [Coord(point, d)];
      assert PointCoords(point, dim)[..d + 1] == PointCoords(point, dim)[..d] + [Coord(point, d)];
    }
    assert PointCoords(point, dim)[..dim] == PointCoords(point, dim);
  }

  lemma MulMonotone(a: nat, b: nat, c: nat)
    requires a <= b
    ensures a * c <= b * c
  {
  }

  lemma {:induction false} RingCoordsLength(ring: seq<seq<real>>, dim: nat)
    ensures |RingCoords(ring, dim)| == |ring| * dim
  {
    if ring != [] {
      RingCoordsLength(ring[..|ring| - 1], dim);
      assert (|ring| - 1) * dim + dim == |ring| * dim;
    }
  }

  /** Coordinate d of point j of a ring sits at j*dim+d of the ring's run. */
  lemma {:induction false} RingCoordsAt(ring: seq<seq<real>>, dim: nat, j: nat, d: nat)
    requires j < |ring| && d < dim
    ensures j * dim + d < |RingCoords(ring, dim)|
    ensures RingCoords(ring, dim)[j * dim + d] == Coord(ring[j], d)
  {
    var n := |ring|;
    var pre := ring[..n - 1];
    RingCoordsLength(ring, dim);
    RingCoordsLength(pre, dim);
    assert j * dim + d < (j + 1) * dim;
    MulMonotone(j + 1, n, dim);
    if j < n - 1 {
      RingCoordsAt(pre, dim, j, d);
      MulMonotone(j + 1, n - 1, dim);
      assert pre[j] == ring[j];
    } else {
      assert j * dim + d == |RingCoords(pre, dim)| + d;
    }
  }

  lemma {:induction false} FlattenedLength(rings: seq<seq<seq<real>>>, dim: nat)
    ensures |Flattened(rings, dim)| == PointCount(rings) * dim
  {
    if rings != [] {
      var pre, last := rings[..|rings| - 1], rings[|rings| - 1];
      assert Flattened(rings, dim) == Flattened(pre, dim) + RingCoords(last, dim);
      assert PointCount(rings) == PointCount(pre) + |last|;
      FlattenedLength(pre, dim);
      RingCoordsLength(last, dim);
      MulDistributes(PointCount(pre), |last|, dim);
    }
  }

  /** A prefix of the rings has no more points than all of them. */
  lemma {:induction false} PointCountPrefix(rings: seq<seq<seq<real>>>, i: nat)
    requires i <= |rings|
    ensures PointCount(rings[..i]) <= PointCount(rings)
  {
    if i < |rings| {
      var pre := rings[..|rings| - 1];
      assert pre[..i] == rings[..i];
      PointCountPrefix(pre, i);
    } else {
      assert rings[..i] == rings;
    }
  }

  lemma PointCountStep(rings: seq<seq<seq<real>>>, i: nat)
    requires i < |rings|
    ensures PointCount(rings[..i + 1]) == PointCount(rings[..i]) + |rings[i]|
  {
    assert rings[..i + 1][..i] == rings[..i];
  }

  lemma MulDistributes(a: nat, b: nat, c: nat)
    ensures (a + b) * c == a * c + b * c
  {
  }

  lemma IndexBound(a: nat, b: nat, dim: nat, d: nat)
    requires a < b && d < dim
    ensures a * dim + d < b * dim
  {
    MulMonotone(a + 1, b, dim);
    assert (a + 1) * dim == a * dim + dim;
  }

  /** The layout of `vertices`, ring-major, then point, then dimension:
      coordinate d of point j of ring i is at (off_i + j) * dim + d, where
      off_i is the number of points in the rings before ring i. */
  lemma {:induction false} FlattenedAt(rings: seq<seq<seq<real>>>, dim: nat, i: nat, j: nat, d: nat)
    requires i < |rings| && j < |rings[i]| && d < dim
    ensures (PointCount(rings[..i]) + j) * dim + d < |Flattened(rings, dim)|
    ensures Flattened(rings, dim)[(PointCount(rings[..i]) + j) * dim + d] == Coord(rings[i][j], d)
  {
    var n := |rings|;
    var pre := rings[..n - 1];
    var last := rings[n - 1];
    var off := PointCount(rings[..i]);
    assert Flattened(rings, dim) == Flattened(pre, dim) + RingCoords(last, dim);
    FlattenedLength(pre, dim);
    RingCoordsLength(last, dim);
    if i < n - 1 {
      assert pre[..i] == rings[..i] && pre[i] == rings[i];
      FlattenedAt(pre, dim, i, j, d);
    } else {
      assert rings[..i] == pre;
      RingCoordsAt(last, dim, j, d);
      MulDistributes(off, j, dim);
    }
  }

  /** The hole offsets never decrease. */
  lemma {:induction false} HoleOffsetsNondecreasing(rings: seq<seq<seq<real>>>, a: nat, b: nat)
    requires a <= b <= |rings|
    ensures PointCount(rings[..a]) <= PointCount(rings[..b])
  {
    assert rings[..b][..a] == rings[..a];
    PointCountPrefix(rings[..b], a);
  }

  // ---------------------------------------------------------------------
  // Distances and hit tests

  /** `vectorDistance(dx, dy)` squared: `Math.sqrt` is increasing, so every
      comparison the library makes between distances is the same on the
      squares. */
  function VectorDistance(dx: real, dy: real): (r: real)
    ensures r >= 0.0
  {
    dx * dx + dy * dy
  }

  /** `locationDistance(location1, location2, map)` squared, with
      `map.latLngToLayerPoint` as `project`. */
  function LocationDistance(location1: LatLng, location2: LatLng, project: LatLng -> Point): (r: real)
    ensures r >= 0.0
    ensures project(location1) == project(location2) ==> r == 0.0
  {
    var p1, p2 := project(location1), project(location2);
    VectorDistance(p1.x - p2.x, p1.y - p2.y)
  }

  lemma LocationDistanceSymmetric(a: LatLng, b: LatLng, project: LatLng -> Point)
    ensures LocationDistance(a, b, project) == LocationDistance(b, a, project)
  {
    var p, q := project(a), project(b);
    assert (p.x - q.x) * (p.x - q.x) == (q.x - p.x) * (q.x - p.x);
    assert (p.y - q.y) * (p.y - q.y) == (q.y - p.y) * (q.y - p.y);
  }

  /** `pointInCircle(centerPoint, checkPoint, radius)` */
  function PointInCircle(center: Point, check: Point, radius: real): bool {
    (center.x - check.x) * (center.x - check.x) + (center.y - check.y) * (center.y - check.y) <= radius * radius
  }

  /** Inside means a squared distance of at most radius squared, boundary
      included. */
  lemma PointInCircleMeaning(center: Point, check: Point, radius: real)
    ensures PointInCircle(center, check, radius) <==>
      VectorDistance(center.x - check.x, center.y - check.y) <= radius * radius
  {
  }

  /** The two points can be swapped. */
  lemma PointInCircleSymmetric(center: Point, check: Point, radius: real)
    ensures PointInCircle(center, check, radius) == PointInCircle(check, center, radius)
  {
    assert (center.x - check.x) * (center.x - check.x) == (check.x - center.x) * (check.x - center.x);
    assert (center.y - check.y) * (center.y - check.y) == (check.y - center.y) * (check.y - center.y);
  }

  /** A point exactly `radius` away along an axis counts as inside. */
  lemma PointInCircleBoundary(center: Point, radius: real)
    ensures PointInCircle(center, Point(center.x + radius, center.y), radius)
    ensures PointInCircle(center, Point(center.x, center.y - radius), radius)
  {
  }

  /** The sign of the radius does not matter: only its square is used. */
  lemma PointInCircleNegatedRadius(center: Point, check: Point, radius: real)
    ensures PointInCircle(center, check, radius) == PointInCircle(center, check, -radius)
  {
  }

  /** The reduce inside `closest`: start from the first candidate, and keep
      the previous one only when it is strictly closer than the current one. */
  function ClosestIndex<T>(candidates: seq<T>, distance: T -> real): (k: nat)
    requires |candidates| > 0
    ensures k < |candidates|
    decreases |candidates|
  {
    if |candidates| == 1 then 0
    else
      var last := |candidates| - 1;
      var prev := ClosestIndex(candidates[..last], distance);
      if distance(candidates[..last][prev]) < distance(candidates[last]) then prev else last
  }

  /** The chosen candidate is at least as close as every candidate. */
  lemma {:induction false} ClosestIndexMinimal<T>(candidates: seq<T>, distance: T -> real, j: nat)
    requires j < |candidates|
    ensures distance(candidates[ClosestIndex(candidates, distance)]) <= distance(candidates[j])
    decreases |candidates|
  {
    var last := |candidates| - 1;
    if last > 0 {
      var pre := candidates[..last];
      var prev := ClosestIndex(pre, distance);
      if j < last {
        ClosestIndexMinimal(pre, distance, j);
        assert pre[j] == candidates[j];
      } else {
        ClosestIndexMinimal(pre, distance, prev);
      }
    }
  }

  /** Ties go to the later candidate: every candidate after the chosen one is
      strictly farther. */
  lemma {:induction false} ClosestIndexLastTie<T>(candidates: seq<T>, distance: T -> real, j: nat)
    requires j < |candidates|
    requires ClosestIndex(candidates, distance) < j
    ensures distance(candidates[j]) > distance(candidates[ClosestIndex(candidates, distance)])
    decreases |candidates|
  {
    var last := |candidates| - 1;
    var pre := candidates[..last];
    var prev := ClosestIndex(pre, distance);
    assert ClosestIndex(candidates, distance) == prev;
    assert pre[prev] == candidates[prev];
    if j < last {
      ClosestIndexLastTie(pre, distance, j);
      assert pre[j] == candidates[j];
    }
  }

  /** `closest(targetLocation, points, map)` over data `[lat, lng, ...]`:
      null for no candidates, otherwise a candidate by the reduce. */
  function Closest(target: LatLng, candidates: seq<seq<real>>, project: LatLng -> Point): (r: Option<seq<real>>)
    requires forall k :: 0 <= k < |candidates| ==> WellFormed(candidates[k])
    ensures r.None? <==> |candidates| == 0
    ensures r.Some? ==> r.value in candidates
  {
    if |candidates| < 1 then None
    else
      var distance := (c: seq<real>) => if WellFormed(c) then LocationDistance(target, DatumLatLng(c), project) else 0.0;
      Some(candidates[ClosestIndex(candidates, distance)])
  }

  /** A single candidate is its own closest: the reduce does not even call
      its callback. */
  lemma ClosestSingle(target: LatLng, candidate: seq<real>, project: LatLng -> Point)
    requires WellFormed(candidate)
    ensures Closest(target, [candidate], project) == Some(candidate)
  {
  }

  /** On a non-empty list, `closest` returns the LAST candidate of minimal
      distance to the target. */
  lemma {:induction false} ClosestIsLastMinimal(target: LatLng, candidates: seq<seq<real>>, project: LatLng -> Point)
    requires |candidates| > 0
    requires forall k :: 0 <= k < |candidates| ==> WellFormed(candidates[k])
    ensures exists k :: (0 <= k < |candidates| && Closest(target, candidates, project) == Some(candidates[k]) &&
      (forall j :: 0 <= j < |candidates| ==>
         LocationDistance(target, DatumLatLng(candidates[k]), project) <= LocationDistance(target, DatumLatLng(candidates[j]), project)) &&
      (forall j :: k < j < |candidates| ==>
         LocationDistance(target, DatumLatLng(candidates[k]), project) < LocationDistance(target, DatumLatLng(candidates[j]), project)))
  {
    var distance := (c: seq<real>) => if WellFormed(c) then LocationDistance(target, DatumLatLng(c), project) else 0.0;
    var k := ClosestIndex(candidates, distance);
    assert Closest(target, candidates, project) == Some(candidates[k]);
    forall j | 0 <= j < |candidates|
      ensures LocationDistance(target, DatumLatLng(candidates[k]), project) <= LocationDistance(target, DatumLatLng(candidates[j]), project)
    {
      ClosestIndexMinimal(candidates, distance, j);
    }
    forall j | k < j < |candidates|
      ensures LocationDistance(target, DatumLatLng(candidates[k]), project) < LocationDistance(target, DatumLatLng(candidates[j]), project)
    {
      ClosestIndexLastTie(candidates, distance, j);
    }
  }

  // ---------------------------------------------------------------------
  // setupClick

  predicate Distinct<T(==)>(s: seq<T>) {
    forall i, j :: 0 <= i < j < |s| ==> s[i] != s[j]
  }

  /** The registered maps after `setupClick(map)`: appended only when absent
      (`maps.indexOf(map) < 0`). */
  function Registered<T(==)>(maps: seq<T>, m: T): (r: seq<T>)
    ensures m in r
    ensures forall m :: m in maps ==> m in r
  {
    if m in maps then maps else maps + [m]
  }

  /** Registration keeps the maps duplicate-free. */
  lemma RegisteredDistinct<T>(maps: seq<T>, m: T)
    requires Distinct(maps)
    ensures Distinct(Registered(maps, m))
  {
  }

  /** A repeated registration changes nothing. */
  lemma RegisteredIdempotent<T>(maps: seq<T>, m: T)
    ensures Registered(Registered(maps, m), m) == Registered(maps, m)
  {
  }

  /** Registration adds at most the one map. */
  lemma RegisteredOnly<T>(maps: seq<T>, m: T, other: T)
    requires other in Registered(maps, m)
    ensures other == m || other in maps
  {
  }

  /** The `maps` list of `L.glify` (and of a `GLMap`), with the click
      listener each registration puts on its map. */
  class ClickRegistry {
    var maps: seq<LeafletMap>

    ghost predicate Valid()
      reads this, maps
    {
      Distinct(maps) &&
      forall k :: 0 <= k < |maps| ==> Listener(Click, this) in maps[k].listeners
    }

    constructor ()
      ensures Valid() && maps == []
    {
      maps := [];
    }

    /** `setupClick(map)`: the first registration of a map appends it and
        subscribes one click listener; a later one does nothing. */
    method SetupClick(m: LeafletMap)
      requires Valid()
      modifies this, m
      ensures Valid()
      ensures maps == Registered(old(maps), m)
      ensures m.listeners == if m in old(maps) then old(m.listeners) else old(m.listeners) + {Listener(Click, this)}
      ensures m.zoom == old(m.zoom) && m.size == old(m.size)
      ensures m.zoomAnimation == old(m.zoomAnimation) && m.toLayerPoint == old(m.toLayerPoint)
      ensures m.layers == old(m.layers)
    {
      if m !in maps {
        maps := maps + [m];
        m.listeners := m.listeners + {Listener(Click, this)};
      }
    }
  }

  // ---------------------------------------------------------------------
  // The click listener of setupClick

  /** The static members of the handler classes `L.glify.Points` and
      `L.glify.Shapes`: the class bodies of src/points.js and src/shapes.js
      declare no `static` member, and `tryClick` (points.js:231,
      shapes.js:189) is an instance method. */
  const HandlerClassStatics: map<string, Value> := map[]

  /** What the first statement of the listener `setupClick` puts on a map,
      `L.glify.Points.tryClick(e, map)`, finds to call: a static `tryClick`
      function of the class, or a TypeError. */
  function ClassTryClick(statics: map<string, Value>): (r: Result<Value>)
    ensures r.Ok? <==> "tryClick" in statics && IsFunction(statics["tryClick"])
    ensures r.Err? ==> r.error.TypeError?
  {
    if "tryClick" in statics && IsFunction(statics["tryClick"]) then Ok(statics["tryClick"])
    else Err(TypeError("L.glify.Points.tryClick is not a function"))
  }

  /** As written, every click on a map registered through `L.glify` (which
      is how handlers register their map) throws before any handler is
      asked, since the Points class has no static `tryClick`. */
  lemma ClassListenerThrows()
    ensures ClassTryClick(HandlerClassStatics) == Err(TypeError("L.glify.Points.tryClick is not a function"))
  {
  }
}
