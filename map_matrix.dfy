/** The map-to-clip transform: a 4x4 column-major matrix held in a 16-entry
    buffer, updated in place by `set`, `scaleMatrix` and `translateMatrix`,
    each of which returns the matrix object for chaining. */
module MapMatrixModel {
  import opened Js

  const Size: nat := 16

  /** The buffer after `Float32Array.set(value)`: the first |value| entries
      replaced, the rest kept. */
  function Overwritten(m: seq<real>, value: seq<real>): (r: seq<real>)
    requires |m| == Size && |value| <= Size
    ensures |r| == Size
    ensures forall k :: 0 <= k < |value| ==> r[k] == value[k]
    ensures forall k :: |value| <= k < Size ==> r[k] == m[k]
  {
    value + m[|value|..]
  }

  /** The buffer after `scaleMatrix(s)`: the x and y basis columns
      (entries 0 to 7) multiplied by s. */
  function Scaled(m: seq<real>, s: real): (r: seq<real>)
    requires |m| == Size
    ensures |r| == Size
  {
    seq(Size, k requires 0 <= k < Size => if k < 8 then m[k] * s else m[k])
  }

  /** The buffer after `translateMatrix(tx, ty)`: the translation column
      (entries 12 to 15) moved by the current x and y basis columns. */
  function Translated(m: seq<real>, tx: real, ty: real): (r: seq<real>)
    requires |m| == Size
    ensures |r| == Size
  {
    seq(Size, k requires 0 <= k < Size =>
      if k < 12 then m[k] else m[k] + (m[k - 12] * tx + m[k - 8] * ty))
  }

  /** Row k of the matrix applied to the point (x, y, 0, 1). */
  function Apply(m: seq<real>, x: real, y: real, k: nat): real
    requires |m| == Size && k < 4
  {
    m[k] * x + m[4 + k] * y + m[12 + k]
  }

  class MapMatrix {
    /** `_mapMatrix`: the buffer is allocated once and never replaced. */
    const buffer: array<real>

    constructor ()
      ensures buffer.Length == Size && fresh(buffer)
      ensures forall k :: 0 <= k < Size ==> buffer[k] == 0.0
    {
      buffer := new real[Size](_ => 0.0);
    }

    /** `set(value)`: overwrite the leading entries with `value`; a value
        longer than the buffer is a RangeError and changes nothing. */
    method Set(value: seq<real>) returns (r: Result<MapMatrix>)
      requires buffer.Length == Size
      modifies buffer
      ensures |value| <= Size ==> r == Ok(this) && buffer[..] == Overwritten(old(buffer[..]), value)
      ensures |value| > Size ==> r.Err? && r.error.RangeError? && buffer[..] == old(buffer[..])
    {
      if |value| > Size {
        return Err(RangeError("offset is out of bounds"));
      }
      var k := 0;
      while k < |value|
        invariant 0 <= k <= |value|
        invariant forall j :: 0 <= j < k ==> buffer[j] == value[j]
        invariant forall j :: k <= j < Size ==> buffer[j] == old(buffer[j])
      {
        buffer[k] := value[k];
        k := k + 1;
      }
      return Ok(this);
    }

    /** `translateMatrix(tx, ty)` */
    method TranslateMatrix(tx: real, ty: real) returns (self: MapMatrix)
      requires buffer.Length == Size
      modifies buffer
      ensures self == this
      ensures buffer[..] == Translated(old(buffer[..]), tx, ty)
    {
      ghost var before := buffer[..];
      buffer[12] := buffer[12] + (buffer[0] * tx + buffer[4] * ty);
      buffer[13] := buffer[13] + (buffer[1] * tx + buffer[5] * ty);
      buffer[14] := buffer[14] + (buffer[2] * tx + buffer[6] * ty);
      buffer[15] := buffer[15] + (buffer[3] * tx + buffer[7] * ty);
      assert buffer[..][..12] == before[..12];
      TranslatedIs(before, buffer[..], tx, ty);
      return this;
    }

    /** `scaleMatrix(s)` */
    method ScaleMatrix(s: real) returns (self: MapMatrix)
      requires buffer.Length == Size
      modifies buffer
      ensures self == this
      ensures buffer[..] == Scaled(old(buffer[..]), s)
    {
      // the eight statements `m[j] *= scale` for j = 0 to 7, in order
      for j := 0 to 8
        invariant forall i :: 0 <= i < j ==> buffer[i] == old(buffer[i]) * s
        invariant forall i :: j <= i < Size ==> buffer[i] == old(buffer[i])
      {
        buffer[j] := buffer[j] * s;
      }
      ghost var after := Scaled(old(buffer[..]), s);
      forall i | 0 <= i < Size ensures buffer[i] == after[i] {
        if i < 8 { assert after[i] == old(buffer[i]) * s; }
      }
      assert buffer[..] == after;
      return this;
    }

    /** The `matrix` getter hands out the live buffer, not a copy. */
    method Matrix() returns (a: array<real>)
      ensures a == buffer
    {
      return buffer;
    }
  }

  /** A buffer that agrees with `Translated` entry by entry is it. */
  lemma TranslatedIs(before: seq<real>, after: seq<real>, tx: real, ty: real)
    requires |before| == Size && |after| == Size
    requires after[..12] == before[..12]
    requires after[12] == before[12] + (before[0] * tx + before[4] * ty)
    requires after[13] == before[13] + (before[1] * tx + before[5] * ty)
    requires after[14] == before[14] + (before[2] * tx + before[6] * ty)
    requires after[15] == before[15] + (before[3] * tx + before[7] * ty)
    ensures after == Translated(before, tx, ty)
  {
    var t := Translated(before, tx, ty);
    forall k | 0 <= k < Size ensures after[k] == t[k] {
      if k < 12 {
        assert after[k] == after[..12][k];
      }
    }
  }

  /** `set(v)` with a full 16-entry value replaces every entry. */
  lemma SetReplacesAll(m: seq<real>, value: seq<real>)
    requires |m| == Size && |value| == Size
    ensures Overwritten(m, value) == value
  {
  }

  /** Scaling multiplies entries 0 to 7 by s and leaves 8 to 15 alone. */
  lemma ScaleEntries(m: seq<real>, s: real)
    requires |m| == Size
    ensures forall k :: 0 <= k < 8 ==> Scaled(m, s)[k] == m[k] * s
    ensures forall k :: 8 <= k < Size ==> Scaled(m, s)[k] == m[k]
  {
  }

  /** Translating moves entry 12+k by m[k]*tx + m[4+k]*ty and leaves 0 to 11 alone. */
  lemma TranslateEntries(m: seq<real>, tx: real, ty: real)
    requires |m| == Size
    ensures forall k :: 0 <= k < 4 ==> Translated(m, tx, ty)[12 + k] == m[12 + k] + (m[k] * tx + m[4 + k] * ty)
    ensures forall k :: 0 <= k < 12 ==> Translated(m, tx, ty)[k] == m[k]
  {
  }

  lemma ScaleTwice(m: seq<real>, s1: real, s2: real)
    requires |m| == Size
    ensures Scaled(Scaled(m, s1), s2) == Scaled(m, s1 * s2)
  {
    var a, b := Scaled(Scaled(m, s1), s2), Scaled(m, s1 * s2);
    forall k | 0 <= k < Size ensures a[k] == b[k] {
      if k < 8 {
        assert a[k] == (m[k] * s1) * s2;
        assert b[k] == m[k] * (s1 * s2);
      }
    }
  }

  lemma TranslateTwice(m: seq<real>, a: real, b: real, c: real, d: real)
    requires |m| == Size
    ensures Translated(Translated(m, a, b), c, d) == Translated(m, a + c, b + d)
  {
    var t1, t2 := Translated(Translated(m, a, b), c, d), Translated(m, a + c, b + d);
    forall k | 0 <= k < Size ensures t1[k] == t2[k] {
      if k >= 12 {
        var x, y := m[k - 12], m[k - 8];
        assert x * (a + c) == x * a + x * c;
        assert y * (b + d) == y * b + y * d;
      }
    }
  }

  lemma ScaleByOne(m: seq<real>)
    requires |m| == Size
    ensures Scaled(m, 1.0) == m
  {
  }

  lemma TranslateByZero(m: seq<real>)
    requires |m| == Size
    ensures Translated(m, 0.0, 0.0) == m
  {
  }

  /** The draw sequence `set(P).scaleMatrix(s).translateMatrix(tx, ty)`:
      the translation column uses the already scaled basis. */
  lemma SetScaleTranslate(m: seq<real>, p: seq<real>, s: real, tx: real, ty: real)
    requires |m| == Size && |p| == Size
    ensures forall k :: 0 <= k < 4 ==>
      Translated(Scaled(Overwritten(m, p), s), tx, ty)[12 + k] == p[12 + k] + s * (p[k] * tx + p[4 + k] * ty)
  {
    var r := Translated(Scaled(Overwritten(m, p), s), tx, ty);
    forall k | 0 <= k < 4
      ensures r[12 + k] == p[12 + k] + s * (p[k] * tx + p[4 + k] * ty)
    {
      assert r[12 + k] == p[12 + k] + ((p[k] * s) * tx + (p[4 + k] * s) * ty);
      assert (p[k] * s) * tx + (p[4 + k] * s) * ty == s * (p[k] * tx + p[4 + k] * ty);
    }
  }

  /** What the translated matrix does to a point: it moves the point first. */
  lemma ApplyTranslated(m: seq<real>, tx: real, ty: real, x: real, y: real, k: nat)
    requires |m| == Size && k < 4
    ensures Apply(Translated(m, tx, ty), x, y, k) == Apply(m, x + tx, y + ty, k)
  {
    var t := Translated(m, tx, ty);
    assert t[k] == m[k] && t[4 + k] == m[4 + k];
    assert t[12 + k] == m[12 + k] + (m[k] * tx + m[4 + k] * ty);
    assert m[k] * (x + tx) == m[k] * x + m[k] * tx;
    assert m[4 + k] * (y + ty) == m[4 + k] * y + m[4 + k] * ty;
  }

  /** What the scaled matrix does to a point: it scales the point first. */
  lemma ApplyScaled(m: seq<real>, s: real, x: real, y: real, k: nat)
    requires |m| == Size && k < 4
    ensures Apply(Scaled(m, s), x, y, k) == Apply(m, s * x, s * y, k)
  {
    var t := Scaled(m, s);
    assert t[k] == m[k] * s && t[4 + k] == m[4 + k] * s && t[12 + k] == m[12 + k];
    assert (m[k] * s) * x == m[k] * (s * x);
    assert (m[4 + k] * s) * y == m[4 + k] * (s * y);
  }

  /** The map matrix of a frame sends a world pixel p to the base matrix
      applied to s * (p + t): with t the negated top-left offset and s the
      zoom scale, that is the canvas pixel of p. */
  lemma {:induction false} FrameTransform(m: seq<real>, p: seq<real>, s: real, tx: real, ty: real, x: real, y: real, k: nat)
    requires |m| == Size && |p| == Size && k < 4
    ensures Apply(Translated(Scaled(Overwritten(m, p), s), tx, ty), x, y, k) == Apply(p, s * (x + tx), s * (y + ty), k)
  {
    SetReplacesAll(m, p);
    ApplyTranslated(Scaled(p, s), tx, ty, x, y, k);
    ApplyScaled(p, s, x + tx, y + ty, k);
  }
}
