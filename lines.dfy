/** The Lines handler: each pair of consecutive data points becomes a quad
    of four vertices (a triangle strip), offset from the two endpoints by
    half the line width along the segment's normal in UTM coordinates, and
    a closing quad joins the last point back to the second last. */
module LinesModel {
  import opened Js
  import opened Leaflet
  import opened Glify
  import opened HandlerBase
  import opened Grid
  import opened MapItemModel

  /** The settings the Lines handler reads, once merged. */
  datatype LineSettings = LineSettings(
    hostMap: LeafletMap, data: seq<Datum>, color: Value, size: Option<real>,
    sensitivity: real, click: Option<PointClick>, lineWidth: real)

  /** A UTM position as `fromLatLon` returns it. */
  datatype Utm = Utm(easting: real, northing: real, zoneNum: int, zoneLetter: char)

  /** The numerics the quads are built from, left abstract: the UTM
      conversions (`fromLatLon`, `toLatLon`) on the positions they accept
      (`FromLatLonError`, `ToLatLonError`), the unit normal of a planar
      vector (`[-vy / length, vx / length]`) and the pixel projection. */
  datatype Geometry = Geometry(
    fromLatLon: (real, real) -> Utm,
    toLatLon: (real, real, int, char) -> LatLng,
    unitNormal: (real, real) -> (real, real),
    pixel: Projection)

  /** The range errors of the utm package's conversions. */
  const LatitudeRangeError: Error := RangeError("latitude out of range (must be between 80 deg S and 84 deg N)")
  const LongitudeRangeError: Error := RangeError("longitude out of range (must be between 180 deg W and 180 deg E)")
  const EastingRangeError: Error := RangeError("easting out of range (must be between 100,000 m and 999,999 m)")
  const NorthingRangeError: Error := RangeError("northing out of range (must be between 0 m and 10,000,000 m)")

  /** The RangeError the utm package's `fromLatLon` throws for a latitude
      outside 80 degrees south to 84 degrees north, or a longitude outside
      180 degrees west to 180 degrees east; None on positions it converts. */
  function FromLatLonError(lat: real, lng: real): (r: Option<Error>)
    ensures r.Some? ==> r.value.RangeError?
    ensures r.None? <==> -80.0 <= lat <= 84.0 && -180.0 <= lng <= 180.0
  {
    if lat < -80.0 || 84.0 < lat then Some(LatitudeRangeError)
    else if lng < -180.0 || 180.0 < lng then Some(LongitudeRangeError)
    else None
  }

  /** The RangeError the utm package's `toLatLon` throws, in its default
      strict mode, for an easting outside [100 000, 1 000 000) metres or a
      northing outside [0, 10 000 000] metres. The zone it is given is the
      one `fromLatLon` returned, so the zone checks never fail. */
  function ToLatLonError(at: (real, real)): (r: Option<Error>)
    ensures r.Some? ==> r.value.RangeError?
    ensures r.None? <==> 100000.0 <= at.0 < 1000000.0 && 0.0 <= at.1 <= 10000000.0
  {
    if at.0 < 100000.0 || 1000000.0 <= at.0 then Some(EastingRangeError)
    else if at.1 < 0.0 || 10000000.0 < at.1 then Some(NorthingRangeError)
    else None
  }

  /** The first `toLatLon` error among the four corners of a quad. */
  function CornersError(c: seq<(real, real)>): (r: Option<Error>)
    requires |c| == 4
    ensures r.Some? ==> r.value.RangeError?
    ensures r.None? <==> forall k :: 0 <= k < 4 ==> ToLatLonError(c[k]).None?
  {
    if ToLatLonError(c[0]).Some? then ToLatLonError(c[0])
    else if ToLatLonError(c[1]).Some? then ToLatLonError(c[1])
    else if ToLatLonError(c[2]).Some? then ToLatLonError(c[2])
    else ToLatLonError(c[3])
  }

  /** The normal scaled by half the line width. */
  function Offset(n: (real, real), half: real): (real, real) {
    (n.0 * half, n.1 * half)
  }

  /** A UTM position moved by the offset, or against it. */
  function Plus(u: Utm, o: (real, real)): (real, real) {
    (u.easting + o.0, u.northing + o.1)
  }

  function Minus(u: Utm, o: (real, real)): (real, real) {
    (u.easting - o.0, u.northing - o.1)
  }

  /** The four planar corners of a segment's quad, in push order:
      point1 + offset, point1 - offset, point2 + offset, point2 - offset. */
  function PlanarCorners(u1: Utm, u2: Utm, n: (real, real), half: real): (r: seq<(real, real)>)
    ensures |r| == 4
  {
    var o := Offset(n, half);
    [Plus(u1, o), Minus(u1, o), Plus(u2, o), Minus(u2, o)]
  }

  /** The planar corners of the segment from p1 to p2. */
  function SegmentPlanar(g: Geometry, half: real, p1: Datum, p2: Datum): (r: seq<(real, real)>)
    ensures |r| == 4
  {
    var u1 := g.fromLatLon(p1[0], p1[1]);
    var u2 := g.fromLatLon(p2[0], p2[1]);
    PlanarCorners(u1, u2, g.unitNormal(u2.easting - u1.easting, u2.northing - u1.northing), half)
  }

  /** The two corners at each endpoint are mirror images through it, at
      the normal scaled by half the width on either side. */
  lemma CornersMirror(u1: Utm, u2: Utm, n: (real, real), half: real)
    ensures var c := PlanarCorners(u1, u2, n, half);
      c[0].0 - u1.easting == n.0 * half && c[1].0 - u1.easting == -(n.0 * half) &&
      c[0].1 - u1.northing == n.1 * half && c[1].1 - u1.northing == -(n.1 * half) &&
      c[2].0 - u2.easting == n.0 * half && c[3].0 - u2.easting == -(n.0 * half) &&
      c[2].1 - u2.northing == n.1 * half && c[3].1 - u2.northing == -(n.1 * half) &&
      c[0].0 + c[1].0 == 2.0 * u1.easting && c[0].1 + c[1].1 == 2.0 * u1.northing &&
      c[2].0 + c[3].0 == 2.0 * u2.easting && c[2].1 + c[3].1 == 2.0 * u2.northing
  {
  }

  /** The five buffer values of one quad vertex: the pixel of the corner
      converted back to latitude and longitude in the endpoint's zone,
      then the colour's r, g, b. */
  function CornerVertex(g: Geometry, u: Utm, corner: (real, real), rgb: seq<Value>): (r: seq<Value>)
    requires |rgb| == 3
    ensures |r| == 5
  {
    var ll := g.toLatLon(corner.0, corner.1, u.zoneNum, u.zoneLetter);
    PixelValues(g.pixel, Some(ll.lat), Some(ll.lng)) + rgb
  }

  /** One vertex of a quad: the endpoint's UTM position, the planar corner
      and the endpoint's colour components. */
  datatype QuadCorner = QuadCorner(u: Utm, at: (real, real), rgb: Rgb)

  /** The buffer values of a run of quad vertices, in order. */
  function Vertices(g: Geometry, corners: seq<QuadCorner>): (r: seq<Value>)
    ensures |r| == 5 * |corners|
    decreases |corners|
  {
    if corners == [] then []
    else CornerVertex(g, corners[0].u, corners[0].at, corners[0].rgb) + Vertices(g, corners[1..])
  }

  /** Vertex k of a run sits at entries 5k to 5k + 4. */
  lemma {:induction false} VerticesAt(g: Geometry, corners: seq<QuadCorner>, k: nat)
    requires k < |corners|
    ensures Vertices(g, corners)[5 * k .. 5 * k + 5] == CornerVertex(g, corners[k].u, corners[k].at, corners[k].rgb)
    decreases k
  {
    var head := CornerVertex(g, corners[0].u, corners[0].at, corners[0].rgb);
    var rest := Vertices(g, corners[1..]);
    if k == 0 {
      assert Vertices(g, corners)[0..5] == (head + rest)[0..5];
    } else {
      VerticesAt(g, corners[1..], k - 1);
      assert Vertices(g, corners)[5 * k .. 5 * k + 5] == rest[5 * (k - 1) .. 5 * (k - 1) + 5];
    }
  }

  /** The four vertices of a segment's quad, in push order: two at point1
      with color1, then two at point2 with color2. */
  function SegmentCorners(g: Geometry, half: real, p1: Datum, p2: Datum, rgb1: Rgb, rgb2: Rgb): (r: seq<QuadCorner>)
    ensures |r| == 4
  {
    var u1 := g.fromLatLon(p1[0], p1[1]);
    var u2 := g.fromLatLon(p2[0], p2[1]);
    var o := Offset(g.unitNormal(u2.easting - u1.easting, u2.northing - u1.northing), half);
    [QuadCorner(u1, Plus(u1, o), rgb1), QuadCorner(u1, Minus(u1, o), rgb1),
     QuadCorner(u2, Plus(u2, o), rgb2), QuadCorner(u2, Minus(u2, o), rgb2)]
  }

  /** The first conversion error of a segment in the order
      `getVertsFromCoords` meets them: `fromLatLon` of point1 and of point2,
      then `toLatLon` of the four offset corners. None exactly when both
      endpoints lie in the UTM band and every corner within UTM's eastings
      and northings. */
  function SegmentError(g: Geometry, half: real, p1: Datum, p2: Datum): (r: Option<Error>)
    ensures r.Some? ==> r.value.RangeError?
    ensures r.None? <==>
      (FromLatLonError(p1[0], p1[1]).None? && FromLatLonError(p2[0], p2[1]).None? &&
       forall k :: 0 <= k < 4 ==> ToLatLonError(SegmentPlanar(g, half, p1, p2)[k]).None?)
  {
    if FromLatLonError(p1[0], p1[1]).Some? then FromLatLonError(p1[0], p1[1])
    else if FromLatLonError(p2[0], p2[1]).Some? then FromLatLonError(p2[0], p2[1])
    else CornersError(SegmentPlanar(g, half, p1, p2))
  }

  /** `getVertsFromCoords(point1, point2, color1, color2)`, given the two
      colours' components. */
  function SegmentVerts(g: Geometry, half: real, p1: Datum, p2: Datum, rgb1: Rgb, rgb2: Rgb): (r: seq<Value>)
    ensures |r| == 20
  {
    Vertices(g, SegmentCorners(g, half, p1, p2, rgb1, rgb2))
  }

  /** The quad's vertices come in the order two at point1 with color1, then
      two at point2 with color2, each offset from its endpoint along the
      normal, and each ends with its endpoint's colour. */
  lemma SegmentLayout(g: Geometry, half: real, p1: Datum, p2: Datum, rgb1: Rgb, rgb2: Rgb)
    ensures var r := SegmentVerts(g, half, p1, p2, rgb1, rgb2);
      var u1 := g.fromLatLon(p1[0], p1[1]);
      var u2 := g.fromLatLon(p2[0], p2[1]);
      var c := PlanarCorners(u1, u2, g.unitNormal(u2.easting - u1.easting, u2.northing - u1.northing), half);
      r[0..5] == CornerVertex(g, u1, c[0], rgb1) && r[5..10] == CornerVertex(g, u1, c[1], rgb1) &&
      r[10..15] == CornerVertex(g, u2, c[2], rgb2) && r[15..20] == CornerVertex(g, u2, c[3], rgb2) &&
      r[2..5] == rgb1 && r[7..10] == rgb1 && r[12..15] == rgb2 && r[17..20] == rgb2
  {
    var cs := SegmentCorners(g, half, p1, p2, rgb1, rgb2);
    var r := SegmentVerts(g, half, p1, p2, rgb1, rgb2);
    VerticesAt(g, cs, 0);
    VerticesAt(g, cs, 1);
    VerticesAt(g, cs, 2);
    VerticesAt(g, cs, 3);
    CornerColourAt(r, 0, g, cs[0]);
    CornerColourAt(r, 1, g, cs[1]);
    CornerColourAt(r, 2, g, cs[2]);
    CornerColourAt(r, 3, g, cs[3]);
  }

  /** A buffer whose k-th vertex is a corner's ends with that corner's
      colour. */
  lemma CornerColourAt(r: seq<Value>, k: nat, g: Geometry, c: QuadCorner)
    requires 5 * k + 5 <= |r|
    requires r[5 * k .. 5 * k + 5] == CornerVertex(g, c.u, c.at, c.rgb)
    ensures r[5 * k + 2 .. 5 * k + 5] == c.rgb
  {
    assert r[5 * k + 2 .. 5 * k + 5] == r[5 * k .. 5 * k + 5][2..5];
  }

  /** The endpoints of segment s of n points: (s, s + 1) for the pairs of
      the loop, (n - 1, n - 2) for the closing segment s = n - 1. */
  function Ends(n: nat, s: nat): (nat, nat)
    requires 2 <= n && s < n
  {
    if s < n - 1 then (s, s + 1) else (n - 1, n - 2)
  }

  /** The colour of the first (`which` = 0) or second endpoint of segment
      s: the constant, or the colour function called with the endpoint's
      index as the (2s + which)-th call. */
  function SegmentColour(src: ColourSource, calls: ColourCalls, n: nat, s: nat, which: nat): Value
    requires 2 <= n && s < n && which < 2
  {
    var e := Ends(n, s);
    ColourAt(src, calls, 2 * s + which, [Num((if which == 0 then e.0 else e.1) as real)])
  }

  /** `color.r` can be read: the colour is neither undefined nor null. */
  predicate HasComponents(color: Value) {
    !color.Undefined? && !color.Null?
  }

  /** Both endpoint colours of segment s have components. */
  predicate SegmentColoured(src: ColourSource, calls: ColourCalls, n: nat, s: nat)
    requires 2 <= n && s < n
  {
    HasComponents(SegmentColour(src, calls, n, s, 0)) && HasComponents(SegmentColour(src, calls, n, s, 1))
  }

  predicate AllColoured(src: ColourSource, calls: ColourCalls, n: nat, m: nat)
    requires 2 <= n && m <= n
  {
    forall s :: 0 <= s < m ==> SegmentColoured(src, calls, n, s)
  }

  /** Segment s of the data converts to UTM and back. */
  predicate SegmentPlaced(g: Geometry, half: real, data: seq<Datum>, s: nat)
    requires 2 <= |data| && s < |data|
  {
    var e := Ends(|data|, s);
    SegmentError(g, half, data[e.0], data[e.1]).None?
  }

  predicate AllPlaced(g: Geometry, half: real, data: seq<Datum>, m: nat)
    requires 2 <= |data| && m <= |data|
  {
    forall s :: 0 <= s < m ==> SegmentPlaced(g, half, data, s)
  }

  /** Segment s yields its quad: it converts and both colours have
      components. */
  predicate SegmentDrawn(src: ColourSource, calls: ColourCalls, g: Geometry, half: real, data: seq<Datum>, s: nat)
    requires 2 <= |data| && s < |data|
  {
    SegmentPlaced(g, half, data, s) && SegmentColoured(src, calls, |data|, s)
  }

  /** The segment at which `getVertsFromCoords` throws, or m when none of
      the first m does. */
  function FirstFailedSegment(src: ColourSource, calls: ColourCalls, g: Geometry, half: real, data: seq<Datum>, m: nat): (r: nat)
    requires 2 <= |data| && m <= |data|
    ensures r <= m && AllColoured(src, calls, |data|, r) && AllPlaced(g, half, data, r)
    ensures r < m ==> !SegmentDrawn(src, calls, g, half, data, r)
  {
    if m == 0 then 0
    else
      var k := FirstFailedSegment(src, calls, g, half, data, m - 1);
      if k < m - 1 then k
      else if !SegmentDrawn(src, calls, g, half, data, m - 1) then m - 1
      else m
  }

  lemma FirstFailedSegmentIs(src: ColourSource, calls: ColourCalls, g: Geometry, half: real, data: seq<Datum>, m: nat, s: nat)
    requires 2 <= |data| && m <= |data| && s < m
    requires AllColoured(src, calls, |data|, s) && AllPlaced(g, half, data, s)
    requires !SegmentDrawn(src, calls, g, half, data, s)
    ensures FirstFailedSegment(src, calls, g, half, data, m) == s
  {
  }

  lemma AllDrawnStop(src: ColourSource, calls: ColourCalls, g: Geometry, half: real, data: seq<Datum>)
    requires 2 <= |data| && AllColoured(src, calls, |data|, |data|) && AllPlaced(g, half, data, |data|)
    ensures FirstFailedSegment(src, calls, g, half, data, |data|) == |data|
  {
  }

  /** One more drawn segment extends the drawn prefix. */
  lemma AllDrawnStep(src: ColourSource, calls: ColourCalls, g: Geometry, half: real, data: seq<Datum>, s: nat)
    requires 2 <= |data| && s < |data|
    requires AllColoured(src, calls, |data|, s) && AllPlaced(g, half, data, s)
    requires SegmentDrawn(src, calls, g, half, data, s)
    ensures AllColoured(src, calls, |data|, s + 1) && AllPlaced(g, half, data, s + 1)
  {
  }

  /** What segment s throws: the conversion's RangeError, or else
      `color.r` on the first endpoint colour without components. */
  function SegmentFailure(src: ColourSource, calls: ColourCalls, g: Geometry, half: real, data: seq<Datum>, s: nat): Error
    requires 2 <= |data| && s < |data| && !SegmentDrawn(src, calls, g, half, data, s)
  {
    var e := Ends(|data|, s);
    var placing := SegmentError(g, half, data[e.0], data[e.1]);
    if placing.Some? then placing.value
    else
      var c1 := SegmentColour(src, calls, |data|, s, 0);
      NoComponentsError(if !HasComponents(c1) then c1 else SegmentColour(src, calls, |data|, s, 1))
  }

  /** The r, g, b components of one colour. */
  type Rgb = c: seq<Value> | |c| == 3 witness [Undefined, Undefined, Undefined]

  function RgbOf(color: Value): (r: Rgb)
    requires HasComponents(color)
    ensures Components(color) == Some(r)
  {
    Components(color).value
  }

  /** The components of segment s's two endpoint colours. */
  function SegmentRgb(src: ColourSource, calls: ColourCalls, n: nat, s: nat): (r: (Rgb, Rgb))
    requires 2 <= n && s < n && SegmentColoured(src, calls, n, s)
    ensures Components(SegmentColour(src, calls, n, s, 0)) == Some(r.0)
    ensures Components(SegmentColour(src, calls, n, s, 1)) == Some(r.1)
  {
    (RgbOf(SegmentColour(src, calls, n, s, 0)), RgbOf(SegmentColour(src, calls, n, s, 1)))
  }

  /** Quad s of the data with its endpoint colours. */
  function Quad(g: Geometry, half: real, data: seq<Datum>, s: nat, rgb: (Rgb, Rgb)): (r: seq<Value>)
    requires 2 <= |data| && s < |data|
    ensures |r| == 20
  {
    QuadAfter(g, half, data, s, rgb, 1)
  }

  /** Quad s reached through `steps` steps of recursion. The step keeps
      the quad's geometry folded: the solver expands it only in the proofs
      that call QuadIs, instead of at every mention of a quad. */
  function QuadAfter(g: Geometry, half: real, data: seq<Datum>, s: nat, rgb: (Rgb, Rgb), steps: nat): (r: seq<Value>)
    requires 2 <= |data| && s < |data|
    ensures |r| == 20
  {
    if steps == 0 then
      var e := Ends(|data|, s);
      SegmentVerts(g, half, data[e.0], data[e.1], rgb.0, rgb.1)
    else QuadAfter(g, half, data, s, rgb, steps - 1)
  }

  /** A quad is the segment's `getVertsFromCoords` vertices. */
  lemma QuadIs(g: Geometry, half: real, data: seq<Datum>, s: nat, rgb: (Rgb, Rgb))
    requires 2 <= |data| && s < |data|
    ensures var e := Ends(|data|, s);
      Quad(g, half, data, s, rgb) == SegmentVerts(g, half, data[e.0], data[e.1], rgb.0, rgb.1)
  {
    assert Quad(g, half, data, s, rgb) == QuadAfter(g, half, data, s, rgb, 0);
  }

  /** The endpoint components of the first m segments, each coloured. */
  function SegmentRgbs(src: ColourSource, calls: ColourCalls, n: nat, m: nat): (r: seq<(Rgb, Rgb)>)
    requires 2 <= n && m <= n && AllColoured(src, calls, n, m)
    ensures |r| == m
  {
    if m == 0 then []
    else
      assert SegmentColoured(src, calls, n, m - 1);
      SegmentRgbs(src, calls, n, m - 1) + [SegmentRgb(src, calls, n, m - 1)]
  }

  lemma {:induction false} SegmentRgbsAt(src: ColourSource, calls: ColourCalls, n: nat, m: nat, s: nat)
    requires 2 <= n && m <= n && AllColoured(src, calls, n, m) && s < m
    ensures SegmentColoured(src, calls, n, s)
    ensures SegmentRgbs(src, calls, n, m)[s] == SegmentRgb(src, calls, n, s)
  {
    if s < m - 1 {
      SegmentRgbsAt(src, calls, n, m - 1, s);
    }
  }

  /** The buffer after one quad per entry of rgbs, in segment order. */
  function LineVerts(g: Geometry, half: real, data: seq<Datum>, rgbs: seq<(Rgb, Rgb)>): seq<Value>
    requires 2 <= |data| && |rgbs| <= |data|
    decreases |rgbs|
  {
    if rgbs == [] then []
    else
      var k := |rgbs| - 1;
      LineVerts(g, half, data, rgbs[..k]) + Quad(g, half, data, k, rgbs[k])
  }

  /** Twenty buffer entries per quad. */
  lemma {:induction false} LineVertsLength(g: Geometry, half: real, data: seq<Datum>, rgbs: seq<(Rgb, Rgb)>)
    requires 2 <= |data| && |rgbs| <= |data|
    ensures |LineVerts(g, half, data, rgbs)| == 20 * |rgbs|
    decreases |rgbs|
  {
    if rgbs != [] {
      LineVertsLength(g, half, data, rgbs[..|rgbs| - 1]);
    }
  }

  /** Entries 20s to 20s + 19 are quad s, built from segment s's two
      endpoints with their colours. */
  lemma {:induction false} LineVertsAt(g: Geometry, half: real, data: seq<Datum>, rgbs: seq<(Rgb, Rgb)>, s: nat)
    requires 2 <= |data| && |rgbs| <= |data| && s < |rgbs|
    ensures |LineVerts(g, half, data, rgbs)| == 20 * |rgbs|
    ensures LineVerts(g, half, data, rgbs)[20 * s .. 20 * s + 20] == Quad(g, half, data, s, rgbs[s])
    decreases |rgbs|
  {
    var k := |rgbs| - 1;
    var pre := LineVerts(g, half, data, rgbs[..k]);
    var quad := Quad(g, half, data, k, rgbs[k]);
    LineVertsLength(g, half, data, rgbs[..k]);
    assert LineVerts(g, half, data, rgbs) == pre + quad;
    if s < k {
      LineVertsAt(g, half, data, rgbs[..k], s);
      assert rgbs[..k][s] == rgbs[s];
      KeptBlock(pre, quad, 20 * s, Quad(g, half, data, s, rgbs[s]));
    } else {
      LastOfAppend(pre, quad);
    }
  }

  /** Appending keeps a block of the prefix where it was. */
  lemma KeptBlock(a: seq<Value>, b: seq<Value>, i: nat, block: seq<Value>)
    requires i + 20 <= |a| && a[i .. i + 20] == block
    ensures (a + b)[i .. i + 20] == block
  {
    assert (a + b)[i .. i + 20] == a[i .. i + 20];
  }

  lemma LastOfAppend(a: seq<Value>, b: seq<Value>)
    ensures (a + b)[|a|..|a| + |b|] == b
  {
  }

  /** Each vertex of a quad ends with its endpoint's components: the first
      two with the first endpoint's, the last two with the second's. */
  lemma QuadColours(g: Geometry, half: real, data: seq<Datum>, s: nat, rgb: (Rgb, Rgb))
    requires 2 <= |data| && s < |data|
    ensures var q := Quad(g, half, data, s, rgb);
      q[2..5] == rgb.0 && q[7..10] == rgb.0 && q[12..15] == rgb.1 && q[17..20] == rgb.1
  {
    var e := Ends(|data|, s);
    QuadIs(g, half, data, s, rgb);
    SegmentLayout(g, half, data[e.0], data[e.1], rgb.0, rgb.1);
  }

  /** In the buffer, each vertex of quad s carries the components of its
      endpoint's colour. */
  lemma QuadColoursInBuffer(src: ColourSource, calls: ColourCalls, g: Geometry, half: real, data: seq<Datum>, m: nat, s: nat)
    requires 2 <= |data| && m <= |data| && AllColoured(src, calls, |data|, m) && s < m
    ensures var r := LineVerts(g, half, data, SegmentRgbs(src, calls, |data|, m));
      var k := 20 * s;
      |r| == 20 * m &&
      Components(SegmentColour(src, calls, |data|, s, 0)) == Some(r[k + 2 .. k + 5]) &&
      Components(SegmentColour(src, calls, |data|, s, 0)) == Some(r[k + 7 .. k + 10]) &&
      Components(SegmentColour(src, calls, |data|, s, 1)) == Some(r[k + 12 .. k + 15]) &&
      Components(SegmentColour(src, calls, |data|, s, 1)) == Some(r[k + 17 .. k + 20])
  {
    var rgbs := SegmentRgbs(src, calls, |data|, m);
    SegmentRgbsAt(src, calls, |data|, m, s);
    LineVertsAt(g, half, data, rgbs, s);
    QuadColours(g, half, data, s, rgbs[s]);
    BlockColours(LineVerts(g, half, data, rgbs), 20 * s, Quad(g, half, data, s, rgbs[s]), rgbs[s].0, rgbs[s].1);
  }

  /** The colour slices of a quad stored at entry k of a buffer. */
  lemma BlockColours(r: seq<Value>, k: nat, q: seq<Value>, c0: seq<Value>, c1: seq<Value>)
    requires k + 20 <= |r| && r[k .. k + 20] == q
    requires q[2..5] == c0 && q[7..10] == c0 && q[12..15] == c1 && q[17..20] == c1
    ensures r[k + 2 .. k + 5] == c0 && r[k + 7 .. k + 10] == c0 && r[k + 12 .. k + 15] == c1 && r[k + 17 .. k + 20] == c1
  {
    SubSlice(r, k, q, 2, 5);
    SubSlice(r, k, q, 7, 10);
    SubSlice(r, k, q, 12, 15);
    SubSlice(r, k, q, 17, 20);
  }

  lemma SubSlice(r: seq<Value>, k: nat, q: seq<Value>, i: nat, j: nat)
    requires k + 20 <= |r| && r[k .. k + 20] == q && i <= j <= 20
    ensures r[k + i .. k + j] == q[i..j]
  {
    forall t | 0 <= t < j - i
      ensures r[k + i .. k + j][t] == q[i..j][t]
    {
      assert q[i + t] == r[k .. k + 20][i + t];
    }
  }

  /** With a colour function, quad s < n - 1 is coloured by the calls
      `colorFn(s)` and `colorFn(s + 1)`, and the closing quad by
      `colorFn(n - 1)` and `colorFn(n - 2)`, two calls per quad in order. */
  lemma ColourCallOrder(fn: Value, calls: ColourCalls, n: nat, s: nat)
    requires 2 <= n && s < n
    ensures s < n - 1 ==> (SegmentColour(Generator(fn), calls, n, s, 0) == calls(2 * s, [Num(s as real)]) &&
      SegmentColour(Generator(fn), calls, n, s, 1) == calls(2 * s + 1, [Num((s + 1) as real)]))
    ensures s == n - 1 ==> (SegmentColour(Generator(fn), calls, n, s, 0) == calls(2 * n - 2, [Num((n - 1) as real)]) &&
      SegmentColour(Generator(fn), calls, n, s, 1) == calls(2 * n - 1, [Num((n - 2) as real)]))
  {
  }

  /** Reading `point2[0]` of the missing second-last point (fewer than two
      data points). */
  const MissingPointError: Error := TypeError("Cannot read properties of undefined (reading '0')")

  datatype Reset = Reset(outcome: Outcome, verts: seq<Value>)

  /** `resetVertices()`: the colour setting is resolved first; with fewer
      than two points the closing segment reads a missing point; otherwise
      the quads are pushed in order until a segment that does not convert
      or whose endpoint colour has no components. */
  function LinesReset(data: seq<Datum>, color: Value, own: map<string, Value>, calls: ColourCalls, g: Geometry, lineWidth: real): Reset {
    var src := ResolveColour(color, own);
    if src.Err? then Reset(Fail(src.error), [])
    else PushedQuads(src.value, calls, g, data, lineWidth / 2.0)
  }

  /** The error of the closing segment with fewer than two points: a
      single point is converted first, then the missing one is read. */
  function TooFewError(data: seq<Datum>): Error
    requires |data| < 2
  {
    if |data| == 1 && FromLatLonError(data[0][0], data[0][1]).Some? then FromLatLonError(data[0][0], data[0][1]).value
    else MissingPointError
  }

  /** The segment loop and the closing segment from an empty buffer: with
      fewer than two points the closing segment fails; otherwise the quads
      before the first failed segment are pushed, and that segment's
      failure is the error. */
  function PushedQuads(src: ColourSource, calls: ColourCalls, g: Geometry, data: seq<Datum>, half: real): Reset {
    if |data| < 2 then Reset(Fail(TooFewError(data)), [])
    else
      var n := |data|;
      var stop := FirstFailedSegment(src, calls, g, half, data, n);
      var verts := LineVerts(g, half, data, SegmentRgbs(src, calls, n, stop));
      if stop == n then Reset(Pass, verts)
      else Reset(Fail(SegmentFailure(src, calls, g, half, data, stop)), verts)
  }

  /** A completed reset holds 20 entries per point (n - 1 pairs and the
      closing segment), so the strip's vertex count `4 * data.length` is
      the buffer length over five; it completes exactly when the colour
      resolves, there are two points or more, every segment converts to UTM
      and back and every quad is coloured. */
  lemma LinesResetSucceeds(data: seq<Datum>, color: Value, own: map<string, Value>, calls: ColourCalls, g: Geometry, lineWidth: real)
    ensures LinesReset(data, color, own, calls, g, lineWidth).outcome.Pass? <==>
      ResolveColour(color, own).Ok? && |data| >= 2 && AllPlaced(g, lineWidth / 2.0, data, |data|) &&
      AllColoured(ResolveColour(color, own).value, calls, |data|, |data|)
    ensures LinesReset(data, color, own, calls, g, lineWidth).outcome.Pass? ==>
      |LinesReset(data, color, own, calls, g, lineWidth).verts| == 20 * |data| &&
      4 * |data| == |LinesReset(data, color, own, calls, g, lineWidth).verts| / 5
  {
    var src := ResolveColour(color, own);
    if src.Ok? && |data| >= 2 && AllPlaced(g, lineWidth / 2.0, data, |data|) && AllColoured(src.value, calls, |data|, |data|) {
      AllDrawnStop(src.value, calls, g, lineWidth / 2.0, data);
      LineVertsLength(g, lineWidth / 2.0, data, SegmentRgbs(src.value, calls, |data|, |data|));
    }
  }

  /** A segment that fails after s drawn ones ends the pushing there, with
      the quads of those s segments in the buffer. */
  lemma PushedQuadsFailAt(src: ColourSource, calls: ColourCalls, g: Geometry, data: seq<Datum>, half: real, s: nat)
    requires 2 <= |data| && s < |data|
    requires AllColoured(src, calls, |data|, s) && AllPlaced(g, half, data, s)
    requires !SegmentDrawn(src, calls, g, half, data, s)
    ensures PushedQuads(src, calls, g, data, half) ==
      Reset(Fail(SegmentFailure(src, calls, g, half, data, s)), LineVerts(g, half, data, SegmentRgbs(src, calls, |data|, s)))
  {
    FirstFailedSegmentIs(src, calls, g, half, data, |data|, s);
  }

  /** With fewer than two points a resolved colour still fails, leaving an
      empty buffer: on the missing point, or first on a single point
      outside the UTM band. */
  lemma LinesResetTooFew(data: seq<Datum>, color: Value, own: map<string, Value>, calls: ColourCalls, g: Geometry, lineWidth: real)
    requires |data| < 2 && ResolveColour(color, own).Ok?
    ensures |data| == 0 || FromLatLonError(data[0][0], data[0][1]).None? ==>
      LinesReset(data, color, own, calls, g, lineWidth) == Reset(Fail(MissingPointError), [])
    ensures |data| == 1 && FromLatLonError(data[0][0], data[0][1]).Some? ==>
      LinesReset(data, color, own, calls, g, lineWidth) == Reset(Fail(FromLatLonError(data[0][0], data[0][1]).value), [])
  {
  }

  /** Every point is the first endpoint of a segment: point k < n - 1 of
      segment k, the last point of the closing segment. */
  lemma PointStartsSegment(data: seq<Datum>, k: nat)
    requires 2 <= |data| && k < |data|
    ensures Ends(|data|, k).0 == k
  {
  }

  /** A point outside the UTM band, among coloured quads, makes the reset
      fail with a RangeError: the data of a Lines layer must keep
      latitudes within 80 S to 84 N and longitudes within 180 W to 180 E. */
  lemma LinesResetOutOfRange(data: seq<Datum>, color: Value, own: map<string, Value>, calls: ColourCalls, g: Geometry, lineWidth: real, k: nat)
    requires ResolveColour(color, own).Ok? && 2 <= |data| && k < |data|
    requires AllColoured(ResolveColour(color, own).value, calls, |data|, |data|)
    requires FromLatLonError(data[k][0], data[k][1]).Some?
    ensures LinesReset(data, color, own, calls, g, lineWidth).outcome.Fail?
    ensures LinesReset(data, color, own, calls, g, lineWidth).outcome.error.RangeError?
  {
    var src := ResolveColour(color, own).value;
    var half := lineWidth / 2.0;
    var stop := FirstFailedSegment(src, calls, g, half, data, |data|);
    assert stop < |data| && SegmentFailure(src, calls, g, half, data, stop).RangeError? by {
      PointStartsSegment(data, k);
      assert !SegmentPlaced(g, half, data, k);
      assert stop <= k;
      assert SegmentColoured(src, calls, |data|, stop);
    }
    LinesResetOutcome(data, color, own, calls, g, lineWidth);
  }

  /** The outcome of a reset with a resolved colour and two points or
      more: the failure of the first segment that fails, if any. */
  lemma LinesResetOutcome(data: seq<Datum>, color: Value, own: map<string, Value>, calls: ColourCalls, g: Geometry, lineWidth: real)
    requires ResolveColour(color, own).Ok? && 2 <= |data|
    ensures var src := ResolveColour(color, own).value;
      var stop := FirstFailedSegment(src, calls, g, lineWidth / 2.0, data, |data|);
      LinesReset(data, color, own, calls, g, lineWidth).outcome ==
        if stop == |data| then Pass else Fail(SegmentFailure(src, calls, g, lineWidth / 2.0, data, stop))
  {
  }

  class Lines {
    const item: MapItem
    var settings: LineSettings
    var verts: seq<Value>
    /** `latLngLookup`: reset to empty and never filled. */
    var latLngLookup: map<GridKey, seq<Datum>>

    constructor (item: MapItem, settings: LineSettings)
      ensures this.item == item && this.settings == settings
      ensures verts == [] && latLngLookup == map[]
    {
      this.item := item;
      this.settings := settings;
      verts := [];
      latLngLookup := map[];
    }

    /** `resetVertices()` */
    method ResetVertices(own: map<string, Value>, calls: ColourCalls, g: Geometry) returns (outcome: Outcome)
      modifies this`verts, this`latLngLookup
      ensures latLngLookup == map[]
      ensures Reset(outcome, verts) == LinesReset(old(settings).data, old(settings).color, own, calls, g, old(settings).lineWidth)
    {
      var current := settings;
      latLngLookup := map[];
      verts := [];
      var resolved := ResolveColour(current.color, own);
      if resolved.Err? {
        return Fail(resolved.error);
      }
      var pushed;
      outcome, pushed := PushQuads(resolved.value, calls, g, current.data, current.lineWidth / 2.0);
      verts := pushed;
    }

    /** The segment loop and the closing segment of `resetVertices`, over
        `data` with half the line width, pushing onto the fresh buffer
        `verts` aliases. */
    method PushQuads(src: ColourSource, calls: ColourCalls, g: Geometry, data: seq<Datum>, half: real)
      returns (outcome: Outcome, verts: seq<Value>)
      ensures Reset(outcome, verts) == PushedQuads(src, calls, g, data, half)
    {
      var n := |data|;
      verts := [];
      if n < 2 {
        if n == 1 {
          var placing := FromLatLonError(data[0][0], data[0][1]);
          if placing.Some? {
            return Fail(placing.value), verts;
          }
        }
        return Fail(MissingPointError), verts;
      }
      ghost var rgbs: seq<(Rgb, Rgb)> := [];
      // s = n - 1 is the closing segment after the loop
      for s := 0 to n
        invariant AllColoured(src, calls, n, s) && AllPlaced(g, half, data, s)
        invariant rgbs == SegmentRgbs(src, calls, n, s)
        invariant verts == LineVerts(g, half, data, rgbs)
      {
        var color1 := SegmentColour(src, calls, n, s, 0);
        var color2 := SegmentColour(src, calls, n, s, 1);
        var e := Ends(n, s);
        var placing := SegmentError(g, half, data[e.0], data[e.1]);
        if placing.Some? {
          PushedQuadsFailAt(src, calls, g, data, half, s);
          return Fail(placing.value), verts;
        }
        if !HasComponents(color1) || !HasComponents(color2) {
          PushedQuadsFailAt(src, calls, g, data, half, s);
          return Fail(NoComponentsError(if !HasComponents(color1) then color1 else color2)), verts;
        }
        var rgb := SegmentRgb(src, calls, n, s);
        verts := verts + Quad(g, half, data, s, rgb);
        AllDrawnStep(src, calls, g, half, data, s);
        rgbs := rgbs + [rgb];
      }
      AllDrawnStop(src, calls, g, half, data);
      return Pass, verts;
    }

    /** `lookup(coords)`: the scan of the empty lookup finds nothing. */
    method Lookup(coords: LatLng) returns (r: Option<Datum>)
      ensures r == Looked(latLngLookup, settings.data, coords, settings.hostMap.toLayerPoint)
    {
      var matches := ScanNeighbourhood(latLngLookup, coords.lat, coords.lng);
      var found := Closest(coords, if |matches| == 0 then settings.data else matches, settings.hostMap.toLayerPoint);
      r := if found.None? then None else Some(found.value);
    }

    /** `tryClick(e, map)` over the handler's own instance list. */
    method TryClick(e: ClickEvent, m: LeafletMap) returns (r: Value)
      ensures r == PointClickResult(item.active, settings.hostMap == m, settings.click,
        Looked(latLngLookup, settings.data, e.latlng, settings.hostMap.toLayerPoint),
        e, m.toLayerPoint, PointSize(settings.size, settings.hostMap.zoom) * settings.sensitivity)
    {
      if !item.active || settings.hostMap != m || settings.click.None? {
        return Undefined;
      }
      var point := Lookup(e.latlng);
      if point.None? {
        return Undefined;
      }
      var found := Closest(e.latlng, [point.value], m.toLayerPoint);
      if found.None? {
        return Undefined;
      }
      var xy := m.toLayerPoint(DatumLatLng(found.value));
      var radius := PointSize(settings.size, settings.hostMap.zoom) * settings.sensitivity;
      if PointInCircle(xy, e.layerPoint, radius) {
        var result := settings.click.value(e, found.value, xy);
        return Hit(result);
      }
      return Undefined;
    }

    /** The vertex count of `drawArrays(TRIANGLE_STRIP, 0, count)`, or None
        without a GL context. */
    method DrawOnCanvas(hasGl: bool) returns (count: Option<nat>)
      ensures hasGl <==> count.Some?
      ensures hasGl ==> count.value == 4 * |settings.data|
    {
      if !hasGl {
        return None;
      }
      return Some(4 * |settings.data|);
    }
  }

  /** Since the lookup stays empty, `lookup` always takes the closest of
      all the data. */
  lemma LinesLookupFallsBack(data: seq<Datum>, coords: LatLng, project: LatLng -> Point)
    ensures Looked(map[], data, coords, project) == Closest(coords, data, project)
  {
    ScanEmpty(coords.lat, coords.lng);
  }
}
