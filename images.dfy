/** The Images handler. Its settings, `resetVertices`, `setData`,
    `pointSize`, `drawOnCanvas`, `lookup` and `tryClick` are those of the
    Points handler (PointsModel); what it adds is the texture it loads in
    `render`: a one-pixel placeholder, then, once the image has loaded,
    mipmaps for power-of-two sizes and edge clamping otherwise. */
module ImagesModel {

  /** 2 to the k. */
  function Pow2(k: nat): (r: nat)
    ensures r >= 1
  {
    if k == 0 then 1 else 2 * Pow2(k - 1)
  }

  /** `ToUint32`: the 32 bits a JavaScript bitwise operator reads from an
      integer operand, as an unsigned number. */
  function Uint32(x: int): (r: nat)
    ensures r < TwoTo32
  {
    x % TwoTo32
  }

  const TwoTo32: nat := 0x1_0000_0000

  lemma Pow2Of32()
    ensures Pow2(32) == TwoTo32
  {
    assert Pow2(8) == 256;
    Pow2Add(8, 8);
    assert Pow2(16) == 0x1_0000;
    Pow2Add(16, 16);
  }

  lemma {:induction false} Pow2Add(a: nat, b: nat)
    ensures Pow2(a + b) == Pow2(a) * Pow2(b)
    decreases a
  {
    if a > 0 {
      Pow2Add(a - 1, b);
    }
  }

  /** The low `width` bits of `a & b`. */
  function BitAnd(a: nat, b: nat, width: nat): nat
    decreases width
  {
    if width == 0 then 0 else (a % 2) * (b % 2) + 2 * BitAnd(a / 2, b / 2, width - 1)
  }

  /** `isPowerOf2(value)`: `(value & (value - 1)) === 0` on 32-bit operands. */
  predicate IsPowerOf2(value: int) {
    BitAnd(Uint32(value), Uint32(value - 1), 32) == 0
  }

  /** A positive power of two, by halving. */
  predicate PowerOfTwo(v: nat)
    decreases v
  {
    v == 1 || (v > 1 && v % 2 == 0 && PowerOfTwo(v / 2))
  }

  lemma {:induction false} BitAndZero(a: nat, width: nat)
    ensures BitAnd(a, 0, width) == 0
    decreases width
  {
    if width > 0 {
      BitAndZero(a / 2, width - 1);
    }
  }

  lemma {:induction false} BitAndSelf(a: nat, width: nat)
    requires a < Pow2(width)
    ensures BitAnd(a, a, width) == a
    decreases width
  {
    if width > 0 {
      BitAndSelf(a / 2, width - 1);
      assert (a % 2) * (a % 2) == a % 2;
    }
  }

  /** For 1 <= v < 2^width, the low bits of `v & (v - 1)` vanish exactly
      when v is a power of two. */
  lemma {:induction false} BitAndPredecessor(v: nat, width: nat)
    requires 1 <= v < Pow2(width)
    ensures BitAnd(v, v - 1, width) == 0 <==> PowerOfTwo(v)
    decreases width
  {
    if v == 1 {
      BitAndZero(1, width);
    } else if v % 2 == 1 {
      // bit 0 of v - 1 is clear and the higher bits agree with v's
      assert (v - 1) / 2 == v / 2;
      BitAndSelf(v / 2, width - 1);
    } else {
      assert (v - 1) % 2 == 1 && (v - 1) / 2 == v / 2 - 1;
      BitAndPredecessor(v / 2, width - 1);
    }
  }

  /** For the widths and heights of real images (below 2^32 pixels),
      `isPowerOf2` accepts exactly the powers of two, and it also accepts
      zero. */
  lemma IsPowerOf2Exact(v: int)
    requires 0 <= v < TwoTo32
    ensures v == 0 ==> IsPowerOf2(v)
    ensures v >= 1 ==> (IsPowerOf2(v) <==> PowerOfTwo(v))
  {
    if v == 0 {
      IsPowerOf2Zero();
    } else {
      IsPowerOf2Positive(v);
    }
  }

  lemma IsPowerOf2Zero()
    ensures IsPowerOf2(0)
  {
    BitAnd0(Uint32(-1), 32);
  }

  lemma IsPowerOf2Positive(v: nat)
    requires 1 <= v < TwoTo32
    ensures IsPowerOf2(v) <==> PowerOfTwo(v)
  {
    assert Uint32(v) == v && Uint32(v - 1) == v - 1;
    Pow2Of32();
    BitAndPredecessor(v, 32);
  }

  lemma {:induction false} BitAnd0(b: nat, width: nat)
    ensures BitAnd(0, b, width) == 0
    decreases width
  {
    if width > 0 {
      BitAnd0(b / 2, width - 1);
    }
  }

  /** The powers of two are accepted. */
  lemma {:induction false} PowersOfTwoAccepted(k: nat)
    requires k < 32
    ensures Pow2(k) < TwoTo32 && PowerOfTwo(Pow2(k)) && IsPowerOf2(Pow2(k))
  {
    Pow2Monotone(k, 32);
    Pow2Of32();
    Pow2IsPowerOfTwo(k);
    IsPowerOf2Exact(Pow2(k));
  }

  lemma {:induction false} Pow2Monotone(j: nat, k: nat)
    requires j < k
    ensures Pow2(j) < Pow2(k)
    decreases k
  {
    if j < k - 1 {
      Pow2Monotone(j, k - 1);
    }
  }

  lemma {:induction false} Pow2IsPowerOfTwo(k: nat)
    ensures PowerOfTwo(Pow2(k))
  {
    if k > 0 {
      Pow2IsPowerOfTwo(k - 1);
      assert Pow2(k) / 2 == Pow2(k - 1);
    }
  }

  /** An odd size above one is not a power of two. */
  lemma OddRejected(v: nat)
    requires 1 < v < TwoTo32 && v % 2 == 1
    ensures !IsPowerOf2(v)
  {
    IsPowerOf2Exact(v);
  }

  /** The texture parameters set once the image has loaded. */
  datatype Sampling =
    | Mipmaps                       // `generateMipmap(TEXTURE_2D)`
    | ClampToEdge(minFilterLinear: bool)  // WRAP_S and WRAP_T CLAMP_TO_EDGE, MIN_FILTER LINEAR

  /** `loadTexture`'s texture: the one opaque blue RGBA pixel it starts
      with, or the loaded image with its sampling. */
  datatype Texture =
    | Placeholder(width: nat, height: nat, rgba: seq<int>)
    | Loaded(imageWidth: int, imageHeight: int, sampling: Sampling)

  /** The texture right after `loadTexture` returns. */
  function LoadTexture(): (t: Texture)
    ensures t.Placeholder? && t.width == 1 && t.height == 1 && |t.rgba| == 4
  {
    Placeholder(1, 1, [0, 0, 255, 255])
  }

  /** `image.onload`: mipmaps when both sides are powers of two, otherwise
      clamping with linear minification. */
  function OnImageLoad(width: int, height: int): (t: Texture)
    ensures t.Loaded? && t.imageWidth == width && t.imageHeight == height
    ensures t.sampling.Mipmaps? <==> IsPowerOf2(width) && IsPowerOf2(height)
    ensures t.sampling.ClampToEdge? ==> t.sampling.minFilterLinear
  {
    Loaded(width, height, if IsPowerOf2(width) && IsPowerOf2(height) then Mipmaps else ClampToEdge(true))
  }

  /** A 2^j by 2^k image gets mipmaps; an image with an odd side above one
      pixel does not. */
  lemma OnImageLoadSizes(j: nat, k: nat, odd: nat, other: nat)
    requires j < 32 && k < 32 && 1 < odd < TwoTo32 && odd % 2 == 1
    ensures OnImageLoad(Pow2(j), Pow2(k)).sampling == Mipmaps
    ensures OnImageLoad(odd, other).sampling == ClampToEdge(true)
    ensures OnImageLoad(other, odd).sampling == ClampToEdge(true)
  {
    PowersOfTwoAccepted(j);
    PowersOfTwoAccepted(k);
    OddRejected(odd);
  }
}
