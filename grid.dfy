/** The spatial lookup of point-like layers (`latLngLookup`): data bucketed
    by their latitude and longitude rounded to hundredths of a degree, and
    the 7 by 7 neighbourhood of buckets that `lookup` scans around a click.
    A rounded coordinate is held as an integer number of hundredths. */
module Grid {
  import opened Js
  import opened Leaflet
  import opened Glify

  /** A bucket key: rounded latitude and longitude, in hundredths. */
  datatype GridKey = GridKey(lat: int, lng: int)

  /** A coordinate as `toFixed(2)` writes it: a minus sign whenever the
      number is negative, even when its digits round to zero, and the
      hundredths of its magnitude rounded to nearest (halves up). */
  datatype Fixed2 = Fixed2(negative: bool, hundredths: int)

  function ToFixed2(x: real): (r: Fixed2)
    ensures r.negative <==> x < 0.0
    ensures r.hundredths >= 0
    ensures var m := if x < 0.0 then -x else x;
      r.hundredths as real <= 100.0 * m + 0.5 < r.hundredths as real + 1.0
  {
    var m := if x < 0.0 then -x else x;
    Fixed2(x < 0.0, (100.0 * m + 0.5).Floor)
  }

  /** The cell of a coordinate, in hundredths: rounded as `toFixed(2)`
      rounds, the magnitude to the nearest hundredth with halves away from
      zero, and signed; a negative value whose digits round to zero is in
      cell 0, with the positive ones. */
  function Quantise(x: real): (q: int)
    ensures x >= 0.0 ==> q as real <= 100.0 * x + 0.5 < q as real + 1.0
    ensures x < 0.0 ==> q as real - 0.5 < 100.0 * x <= q as real + 0.5
  {
    if x < 0.0 then -(-100.0 * x + 0.5).Floor else (100.0 * x + 0.5).Floor
  }

  /** Two coordinates share a cell exactly when `toFixed(2)` writes them
      alike, or both as zero ("-0.00" and "0.00"). */
  lemma SameCell(x: real, y: real)
    ensures Quantise(x) == Quantise(y) <==>
      ToFixed2(x) == ToFixed2(y) || (ToFixed2(x).hundredths == 0 && ToFixed2(y).hundredths == 0)
  {
  }

  /** Halves round away from zero, as in `(-0.125).toFixed(2)`, which is
      "-0.13". */
  lemma QuantiseTies()
    ensures ToFixed2(-0.125) == Fixed2(true, 13) && Quantise(-0.125) == -13
    ensures ToFixed2(0.125) == Fixed2(false, 13) && Quantise(0.125) == 13
  {
  }

  /** A coordinate whose hundredths end in exactly one half: the ties. */
  predicate HalfHundredth(x: real) {
    (100.0 * x + 0.5).Floor as real == 100.0 * x + 0.5
  }

  /** Away from negative ties the cell is the hundredths rounded half up. */
  lemma QuantiseHalfUp(x: real)
    requires !HalfHundredth(x) || x >= 0.0
    ensures Quantise(x) == (100.0 * x + 0.5).Floor
  {
    var q := Quantise(x);
    if x < 0.0 {
      assert 100.0 * x + 0.5 != q as real + 1.0;
      assert q as real <= 100.0 * x + 0.5 < q as real + 1.0;
    }
  }

  /** Moving a coordinate by o hundredths moves its cell by o, unless it
      is a tie that the move takes across zero: the scan keys
      `(lat - 0.03 + 0.01 k).toFixed(2)` are then those of the click's
      cell moved by k - 3. */
  lemma QuantiseShift(x: real, o: int)
    requires !HalfHundredth(x) || (x < 0.0 <==> x + o as real / 100.0 < 0.0)
    ensures Quantise(x + o as real / 100.0) == Quantise(x) + o
  {
    var y := x + o as real / 100.0;
    assert 100.0 * y + 0.5 == (100.0 * x + 0.5) + o as real;
    var q := Quantise(x);
    if !HalfHundredth(x) {
      QuantiseHalfUp(x);
      assert (100.0 * y + 0.5).Floor == q + o by {
        assert (q + o) as real <= 100.0 * y + 0.5 < (q + o) as real + 1.0;
      }
      assert !HalfHundredth(y);
      QuantiseHalfUp(y);
    } else if x < 0.0 {
      assert (q + o) as real - 0.5 < 100.0 * y <= (q + o) as real + 0.5;
      assert -100.0 * y + 0.5 == (-100.0 * x + 0.5) - o as real;
    } else {
      assert (q + o) as real <= 100.0 * y + 0.5 < (q + o) as real + 1.0;
    }
  }

  /** The latitude parts of the keys the scan of `lookup` writes for a
      click at latitude lat, in exact arithmetic. */
  function ScannedFixed2(lat: real): seq<Fixed2> {
    seq(7, k requires 0 <= k < 7 => ToFixed2(lat + (k - 3) as real / 100.0))
  }

  /** As written, a datum just south of the equator (latitude -0.001, key
      "-0.00") and one just north (0.001, key "0.00") land in different
      buckets, and a click on the equator scans only the "0.00" one, so the
      southern datum is missed although it is a thousandth of a degree
      away. Integer hundredths put both in cell 0. */
  lemma ToFixed2SplitsZero()
    ensures ToFixed2(-0.001) != ToFixed2(0.001)
    ensures ToFixed2(-0.001) !in ScannedFixed2(0.0)
    ensures Quantise(-0.001) == Quantise(0.001) == 0
  {
    var keys := ScannedFixed2(0.0);
    assert ToFixed2(-0.001) == Fixed2(true, 0);
    forall k | 0 <= k < 7 ensures keys[k] != Fixed2(true, 0) {
      if k < 3 {
        assert keys[k] == ToFixed2((k - 3) as real / 100.0);
        assert keys[k].hundredths >= 1;
      } else {
        assert !keys[k].negative;
      }
    }
  }

  /** The bucket of a datum. */
  function KeyOf(d: Datum): GridKey {
    GridKey(Quantise(d[LatitudeKey]), Quantise(d[LongitudeKey]))
  }

  /** The bucket of a click location. */
  function CellOf(lat: real, lng: real): GridKey {
    GridKey(Quantise(lat), Quantise(lng))
  }

  /** One datum pushed onto its bucket, which is created first when the key
      is new. */
  function Bucketed(lookup: map<GridKey, seq<Datum>>, d: Datum): map<GridKey, seq<Datum>> {
    var key := KeyOf(d);
    lookup[key := (if key in lookup then lookup[key] else []) + [d]]
  }

  /** The lookup `resetVertices` builds, one datum at a time. */
  function Buckets(data: seq<Datum>): map<GridKey, seq<Datum>>
    decreases |data|
  {
    if data == [] then map[]
    else Bucketed(Buckets(data[..|data| - 1]), data[|data| - 1])
  }

  /** One more datum is pushed onto its bucket. */
  lemma BucketsStep(data: seq<Datum>, i: nat)
    requires i < |data|
    ensures Buckets(data[..i + 1]) == Bucketed(Buckets(data[..i]), data[i])
  {
    assert data[..i + 1][..i] == data[..i];
  }

  /** The data with the given key, in data order. */
  function Bucket(data: seq<Datum>, key: GridKey): (r: seq<Datum>)
    ensures |r| <= |data|
    decreases |data|
  {
    if data == [] then []
    else
      var d := data[|data| - 1];
      Bucket(data[..|data| - 1], key) + (if KeyOf(d) == key then [d] else [])
  }

  /** The keys of the data. */
  function KeySet(data: seq<Datum>): set<GridKey> {
    set i | 0 <= i < |data| :: KeyOf(data[i])
  }

  /** The lookup holds exactly the keys of the data, and under each key the
      data with that key in data order. */
  lemma {:induction false} BucketsAgree(data: seq<Datum>)
    ensures Buckets(data).Keys == KeySet(data)
    ensures forall key :: key in Buckets(data) ==> Buckets(data)[key] == Bucket(data, key)
    decreases |data|
  {
    if data != [] {
      var pre := data[..|data| - 1];
      var d := data[|data| - 1];
      BucketsAgree(pre);
      assert KeySet(data) == KeySet(pre) + {KeyOf(d)} by {
        forall key | key in KeySet(data) ensures key in KeySet(pre) + {KeyOf(d)} {
          var i :| 0 <= i < |data| && KeyOf(data[i]) == key;
          if i < |pre| { assert pre[i] == data[i]; }
        }
        forall key | key in KeySet(pre) ensures key in KeySet(data) {
          var i :| 0 <= i < |pre| && KeyOf(pre[i]) == key;
          assert data[i] == pre[i];
        }
        assert data[|data| - 1] == d;
      }
      forall key | key in Buckets(data) ensures Buckets(data)[key] == Bucket(data, key) {
        if key == KeyOf(d) && key !in Buckets(pre) {
          BucketEmpty(pre, key);
        }
      }
    }
  }

  /** A key that no datum has has an empty bucket. */
  lemma {:induction false} BucketEmpty(data: seq<Datum>, key: GridKey)
    requires key !in KeySet(data)
    ensures Bucket(data, key) == []
    decreases |data|
  {
    if data != [] {
      var pre := data[..|data| - 1];
      assert KeyOf(data[|data| - 1]) != key;
      assert key !in KeySet(pre) by {
        forall i | 0 <= i < |pre| ensures KeyOf(pre[i]) != key {
          assert data[i] == pre[i];
        }
      }
      BucketEmpty(pre, key);
    }
  }

  /** A bucket holds only data of its key. */
  lemma {:induction false} BucketMembers(data: seq<Datum>, key: GridKey, d: Datum)
    requires d in Bucket(data, key)
    ensures d in data && KeyOf(d) == key
    decreases |data|
  {
    var pre := data[..|data| - 1];
    var last := data[|data| - 1];
    if d in Bucket(pre, key) {
      BucketMembers(pre, key, d);
    } else {
      assert d == last && KeyOf(last) == key;
    }
  }

  /** Every datum is in the bucket of its key. */
  lemma {:induction false} BucketContains(data: seq<Datum>, i: nat)
    requires i < |data|
    ensures data[i] in Bucket(data, KeyOf(data[i]))
    decreases |data|
  {
    var pre := data[..|data| - 1];
    if i < |pre| {
      BucketContains(pre, i);
      assert pre[i] == data[i];
    }
  }

  /** Buckets keep data order: the bucket of a concatenation is the
      concatenation of the buckets. */
  lemma {:induction false} BucketAppend(a: seq<Datum>, b: seq<Datum>, key: GridKey)
    ensures Bucket(a + b, key) == Bucket(a, key) + Bucket(b, key)
    decreases |b|
  {
    if b == [] {
      assert a + b == a;
    } else {
      var pre := b[..|b| - 1];
      assert (a + b)[..|a + b| - 1] == a + pre;
      assert (a + b)[|a + b| - 1] == b[|b| - 1];
      BucketAppend(a, pre, key);
    }
  }

  /** The total size of the buckets of some keys. */
  function Total(data: seq<Datum>, keys: seq<GridKey>): nat
    decreases |keys|
  {
    if keys == [] then 0 else Total(data, keys[..|keys| - 1]) + |Bucket(data, keys[|keys| - 1])|
  }

  /** How many of the keys are the given one. */
  function Occurrences(keys: seq<GridKey>, key: GridKey): nat
    decreases |keys|
  {
    if keys == [] then 0 else Occurrences(keys[..|keys| - 1], key) + (if keys[|keys| - 1] == key then 1 else 0)
  }

  lemma {:induction false} TotalStep(data: seq<Datum>, d: Datum, keys: seq<GridKey>)
    ensures Total(data + [d], keys) == Total(data, keys) + Occurrences(keys, KeyOf(d))
    decreases |keys|
  {
    if keys != [] {
      TotalStep(data, d, keys[..|keys| - 1]);
      BucketAppend(data, [d], keys[|keys| - 1]);
      assert Bucket([d], keys[|keys| - 1]) == (if KeyOf(d) == keys[|keys| - 1] then [d] else []) by {
        assert [d][..0] == [];
      }
    }
  }

  lemma {:induction false} OccursOnce(keys: seq<GridKey>, key: GridKey)
    requires Distinct(keys) && key in keys
    ensures Occurrences(keys, key) == 1
    decreases |keys|
  {
    var pre := keys[..|keys| - 1];
    if keys[|keys| - 1] == key {
      OccursNever(pre, key);
    } else {
      assert key in pre;
      OccursOnce(pre, key);
    }
  }

  lemma {:induction false} OccursNever(keys: seq<GridKey>, key: GridKey)
    requires key !in keys
    ensures Occurrences(keys, key) == 0
    decreases |keys|
  {
    if keys != [] {
      OccursNever(keys[..|keys| - 1], key);
    }
  }

  /** Each datum goes into exactly one bucket: over any list of distinct
      keys that covers the data, the bucket sizes add up to the number of
      data. */
  lemma {:induction false} BucketSizesSum(data: seq<Datum>, keys: seq<GridKey>)
    requires Distinct(keys)
    requires forall i :: 0 <= i < |data| ==> KeyOf(data[i]) in keys
    ensures Total(data, keys) == |data|
    decreases |data|
  {
    if data == [] {
      TotalEmpty(keys);
    } else {
      var pre := data[..|data| - 1];
      var d := data[|data| - 1];
      forall i | 0 <= i < |pre| ensures KeyOf(pre[i]) in keys {
        assert pre[i] == data[i];
      }
      BucketSizesSum(pre, keys);
      assert pre + [d] == data;
      TotalStep(pre, d, keys);
      OccursOnce(keys, KeyOf(d));
    }
  }

  lemma {:induction false} TotalEmpty(keys: seq<GridKey>)
    ensures Total([], keys) == 0
    decreases |keys|
  {
    if keys != [] {
      TotalEmpty(keys[..|keys| - 1]);
    }
  }

  // ---------------------------------------------------------------------
  // lookup: the 7 by 7 scan

  /** `latLngLookup[key]` when it is set (a bucket array is truthy even
      when empty), nothing otherwise. */
  function Found(lookup: map<GridKey, seq<Datum>>, key: GridKey): seq<Datum> {
    if key in lookup then lookup[key] else []
  }

  /** The cells the scan visits along one axis around a coordinate x:
      those of x - 0.03, x - 0.02, ..., x + 0.03, in exact arithmetic. */
  function Window(x: real): (w: seq<int>)
    ensures |w| == 7
  {
    seq(7, k requires 0 <= k < 7 => Quantise(x + (k - 3) as real / 100.0))
  }

  /** The matches of one latitude row, over the given longitude cells in
      order. */
  function Row(lookup: map<GridKey, seq<Datum>>, lat: int, lngs: seq<int>): seq<Datum>
    decreases |lngs|
  {
    if lngs == [] then []
    else Row(lookup, lat, lngs[..|lngs| - 1]) + Found(lookup, GridKey(lat, lngs[|lngs| - 1]))
  }

  /** The matches of the rows of the given latitude cells in order. */
  function Rows(lookup: map<GridKey, seq<Datum>>, lats: seq<int>, lngs: seq<int>): seq<Datum>
    decreases |lats|
  {
    if lats == [] then []
    else Rows(lookup, lats[..|lats| - 1], lngs) + Row(lookup, lats[|lats| - 1], lngs)
  }

  /** Everything `lookup` collects around a click: offsets -0.03 to +0.03
      in latitude (outer) and longitude (inner). */
  function Scan(lookup: map<GridKey, seq<Datum>>, lat: real, lng: real): seq<Datum> {
    Rows(lookup, Window(lat), Window(lng))
  }

  /** A key among the cells the scan around (lat, lng) visits. */
  predicate InWindow(key: GridKey, lat: real, lng: real) {
    key.lat in Window(lat) && key.lng in Window(lng)
  }

  /** A key within three cells of the center in both directions. */
  predicate Near(key: GridKey, center: GridKey) {
    -3 <= key.lat - center.lat <= 3 && -3 <= key.lng - center.lng <= 3
  }

  /** A coordinate whose window is its cell's seven neighbours: one that
      is no tie, or whose window does not cross zero. */
  predicate Contiguous(x: real) {
    !HalfHundredth(x) || x - 0.03 >= 0.0 || x + 0.03 < 0.0
  }

  /** The window of a contiguous coordinate is the cells from three below
      its own to three above. */
  lemma WindowContiguous(x: real)
    requires Contiguous(x)
    ensures forall k :: 0 <= k < 7 ==> Window(x)[k] == Quantise(x) + k - 3
  {
    forall k | 0 <= k < 7 ensures Window(x)[k] == Quantise(x) + k - 3 {
      QuantiseShift(x, k - 3);
    }
  }

  /** For a contiguous click, the scanned cells are those within three
      cells of the click's own. */
  lemma InWindowNear(key: GridKey, lat: real, lng: real)
    requires Contiguous(lat) && Contiguous(lng)
    ensures InWindow(key, lat, lng) <==> Near(key, CellOf(lat, lng))
  {
    WindowContiguous(lat);
    WindowContiguous(lng);
    if Near(key, CellOf(lat, lng)) {
      assert Window(lat)[key.lat - Quantise(lat) + 3] == key.lat;
      assert Window(lng)[key.lng - Quantise(lng) + 3] == key.lng;
    }
  }

  /** At a tie just below zero the window skips cell 0: a click at
      latitude -0.005 (cell -1, as "-0.01") scans -0.035 to 0.025, whose
      keys are "-0.04" up to "-0.01" and then "0.01" up to "0.03". */
  lemma WindowSkipsZero()
    ensures Window(-0.005) == [-4, -3, -2, -1, 1, 2, 3]
    ensures 0 !in Window(-0.005)
  {
    var w := Window(-0.005);
    assert w[0] == Quantise(-0.035) == -4;
    assert w[1] == Quantise(-0.025) == -3;
    assert w[2] == Quantise(-0.015) == -2;
    assert w[3] == Quantise(-0.005) == -1;
    assert w[4] == Quantise(0.005) == 1;
    assert w[5] == Quantise(0.015) == 2;
    assert w[6] == Quantise(0.025) == 3;
  }

  /** A datum of one of the cells of a row is in the row. */
  lemma {:induction false} RowHas(lookup: map<GridKey, seq<Datum>>, lat: int, lngs: seq<int>, lng: int, d: Datum)
    requires lng in lngs && d in Found(lookup, GridKey(lat, lng))
    ensures d in Row(lookup, lat, lngs)
    decreases |lngs|
  {
    if lngs[|lngs| - 1] != lng {
      assert lng in lngs[..|lngs| - 1] by {
        var k :| 0 <= k < |lngs| && lngs[k] == lng;
        assert lngs[..|lngs| - 1][k] == lng;
      }
      RowHas(lookup, lat, lngs[..|lngs| - 1], lng, d);
    }
  }

  /** A datum of a row is in one of its cells. */
  lemma {:induction false} RowOnly(lookup: map<GridKey, seq<Datum>>, lat: int, lngs: seq<int>, d: Datum) returns (lng: int)
    requires d in Row(lookup, lat, lngs)
    ensures lng in lngs && d in Found(lookup, GridKey(lat, lng))
    decreases |lngs|
  {
    var pre := lngs[..|lngs| - 1];
    if d in Row(lookup, lat, pre) {
      lng := RowOnly(lookup, lat, pre, d);
      assert lngs[IndexIn(pre, lng)] == lng;
    } else {
      lng := lngs[|lngs| - 1];
    }
  }

  /** The position of an element of a sequence. */
  function IndexIn(s: seq<int>, x: int): (k: nat)
    requires x in s
    ensures k < |s| && s[k] == x
  {
    if s[0] == x then 0 else 1 + IndexIn(s[1..], x)
  }

  lemma {:induction false} RowsHas(lookup: map<GridKey, seq<Datum>>, lats: seq<int>, lngs: seq<int>, key: GridKey, d: Datum)
    requires key.lat in lats && key.lng in lngs && d in Found(lookup, key)
    ensures d in Rows(lookup, lats, lngs)
    decreases |lats|
  {
    if lats[|lats| - 1] != key.lat {
      assert key.lat in lats[..|lats| - 1] by {
        var k := IndexIn(lats, key.lat);
        assert lats[..|lats| - 1][k] == key.lat;
      }
      RowsHas(lookup, lats[..|lats| - 1], lngs, key, d);
    } else {
      RowHas(lookup, key.lat, lngs, key.lng, d);
    }
  }

  lemma {:induction false} RowsOnly(lookup: map<GridKey, seq<Datum>>, lats: seq<int>, lngs: seq<int>, d: Datum) returns (key: GridKey)
    requires d in Rows(lookup, lats, lngs)
    ensures key.lat in lats && key.lng in lngs && d in Found(lookup, key)
    decreases |lats|
  {
    var pre := lats[..|lats| - 1];
    if d in Rows(lookup, pre, lngs) {
      key := RowsOnly(lookup, pre, lngs, d);
      assert lats[IndexIn(pre, key.lat)] == key.lat;
    } else {
      var lng := RowOnly(lookup, lats[|lats| - 1], lngs, d);
      key := GridKey(lats[|lats| - 1], lng);
    }
  }

  /** The scan over the data's buckets collects exactly the data whose key
      is among the cells it visits. */
  lemma ScanExact(data: seq<Datum>, lat: real, lng: real, d: Datum)
    ensures d in Scan(Buckets(data), lat, lng) <==> d in data && InWindow(KeyOf(d), lat, lng)
  {
    if d in Scan(Buckets(data), lat, lng) {
      var key := ScanCell(Buckets(data), lat, lng, d);
      BucketCellHolds(data, key, d);
    }
    if d in data && InWindow(KeyOf(d), lat, lng) {
      BucketCellHas(data, d);
      CellScanned(Buckets(data), lat, lng, KeyOf(d), d);
    }
  }

  /** For a contiguous click, the scan collects exactly the data within
      three cells of the click's cell on both axes. */
  lemma ScanNear(data: seq<Datum>, lat: real, lng: real, d: Datum)
    requires Contiguous(lat) && Contiguous(lng)
    ensures d in Scan(Buckets(data), lat, lng) <==> d in data && Near(KeyOf(d), CellOf(lat, lng))
  {
    ScanExact(data, lat, lng, d);
    InWindowNear(KeyOf(d), lat, lng);
  }

  /** Whatever the scan collects comes from a visited cell. */
  lemma ScanCell(lookup: map<GridKey, seq<Datum>>, lat: real, lng: real, d: Datum) returns (key: GridKey)
    requires d in Scan(lookup, lat, lng)
    ensures InWindow(key, lat, lng) && d in Found(lookup, key)
  {
    key := RowsOnly(lookup, Window(lat), Window(lng), d);
  }

  /** The scan collects whatever is in a visited cell. */
  lemma CellScanned(lookup: map<GridKey, seq<Datum>>, lat: real, lng: real, key: GridKey, d: Datum)
    requires InWindow(key, lat, lng) && d in Found(lookup, key)
    ensures d in Scan(lookup, lat, lng)
  {
    RowsHas(lookup, Window(lat), Window(lng), key, d);
  }

  /** A cell of the data's lookup holds data of that key only. */
  lemma BucketCellHolds(data: seq<Datum>, key: GridKey, d: Datum)
    requires d in Found(Buckets(data), key)
    ensures d in data && KeyOf(d) == key
  {
    BucketsAgree(data);
    assert d in Bucket(data, key);
    BucketMembers(data, key, d);
  }

  /** Every datum is in the cell of its key. */
  lemma BucketCellHas(data: seq<Datum>, d: Datum)
    requires d in data
    ensures d in Found(Buckets(data), KeyOf(d))
  {
    BucketsAgree(data);
    var k :| 0 <= k < |data| && data[k] == d;
    BucketContains(data, k);
    assert KeyOf(d) in KeySet(data);
  }

  /** An empty lookup (the one Lines keeps) yields no matches. */
  lemma ScanEmpty(lat: real, lng: real)
    ensures Scan(map[], lat, lng) == []
  {
    RowsEmpty(Window(lat), Window(lng));
  }

  lemma {:induction false} RowEmpty(lat: int, lngs: seq<int>)
    ensures Row(map[], lat, lngs) == []
    decreases |lngs|
  {
    if lngs != [] { RowEmpty(lat, lngs[..|lngs| - 1]); }
  }

  lemma {:induction false} RowsEmpty(lats: seq<int>, lngs: seq<int>)
    ensures Rows(map[], lats, lngs) == []
    decreases |lats|
  {
    if lats != [] {
      RowsEmpty(lats[..|lats| - 1], lngs);
      RowEmpty(lats[|lats| - 1], lngs);
    }
  }

  /** The innermost loop of `lookup`: push every datum of one bucket onto
      `matches`, in bucket order. */
  method PushAll(matches: seq<Datum>, found: seq<Datum>) returns (r: seq<Datum>)
    ensures r == matches + found
  {
    r := matches;
    for f := 0 to |found|
      invariant r == matches + found[..f]
    {
      r := r + [found[f]];
      assert found[..f + 1] == found[..f] + [found[f]];
    }
    assert found[..|found|] == found;
  }

  /** The middle loop of `lookup`: push the buckets of the 7 cells of one
      latitude row, from west to east, keying each step's longitude. */
  method ScanRow(matches: seq<Datum>, lookup: map<GridKey, seq<Datum>>, lat: int, lng: real) returns (r: seq<Datum>)
    ensures r == matches + Row(lookup, lat, Window(lng))
  {
    r := matches;
    ghost var w := Window(lng);
    for b := 0 to 7
      invariant r == matches + Row(lookup, lat, w[..b])
    {
      var key := GridKey(lat, Quantise(lng + (b - 3) as real / 100.0));
      assert w[..b + 1][..b] == w[..b];
      if key in lookup {
        r := PushAll(r, lookup[key]);
      }
    }
    assert w[..7] == w;
  }

  /** The nested loops of `lookup`: for each of the 7 by 7 steps around
      the click, push every datum of its key's bucket onto `matches`. */
  method ScanNeighbourhood(lookup: map<GridKey, seq<Datum>>, lat: real, lng: real) returns (matches: seq<Datum>)
    ensures matches == Scan(lookup, lat, lng)
  {
    ghost var w := Window(lat);
    matches := [];
    for a := 0 to 7
      invariant matches == Rows(lookup, w[..a], Window(lng))
    {
      assert w[..a + 1][..a] == w[..a];
      matches := ScanRow(matches, lookup, Quantise(lat + (a - 3) as real / 100.0), lng);
    }
    assert w[..7] == w;
  }

  /** `lookup(coords)`: the closest of the scanned matches, or of all the
      data when the scan finds nothing. */
  function Looked(lookup: map<GridKey, seq<Datum>>, data: seq<Datum>, coords: LatLng, project: LatLng -> Point): Option<Datum> {
    var matches := Scan(lookup, coords.lat, coords.lng);
    var found := Closest(coords, if |matches| == 0 then data else matches, project);
    if found.None? then None else Some(found.value)
  }

  /** Over the data's own buckets, `lookup` fails only on empty data, and
      the datum it returns is one of the data. */
  lemma LookedFound(data: seq<Datum>, coords: LatLng, project: LatLng -> Point)
    ensures Looked(Buckets(data), data, coords, project).None? <==> |data| == 0
    ensures Looked(Buckets(data), data, coords, project).Some? ==> Looked(Buckets(data), data, coords, project).value in data
  {
    var matches := Scan(Buckets(data), coords.lat, coords.lng);
    if |matches| > 0 {
      ScanExact(data, coords.lat, coords.lng, matches[0]);
      var r := Looked(Buckets(data), data, coords, project);
      ScanExact(data, coords.lat, coords.lng, r.value);
    }
  }

  /** When no datum lies in a visited cell, `lookup` picks the closest of
      all the data. */
  lemma LookedFallsBack(data: seq<Datum>, coords: LatLng, project: LatLng -> Point)
    requires forall i :: 0 <= i < |data| ==> !InWindow(KeyOf(data[i]), coords.lat, coords.lng)
    ensures Looked(Buckets(data), data, coords, project) == Closest(coords, data, project)
  {
    var matches := Scan(Buckets(data), coords.lat, coords.lng);
    if |matches| > 0 {
      ScanExact(data, coords.lat, coords.lng, matches[0]);
    }
  }
}
