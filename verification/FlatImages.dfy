/** Flat channels through the whole transform of crates/formula-texo/src/preprocess.rs:
 *  for every crop the guards accept, all windows are short and all blocks are small
 *  enough for a flat channel to keep its value exactly. */
module FlatImages {
  import opened Wrappers
  import opened Kernels
  import opened Planes
  import opened Resampling
  import opened Resizing
  import opened Preprocessing
  import B = BoxReduction

  lemma ScaleOf(f: Filter, inSize: nat, outSize: nat, factor: nat)
    requires inSize > 0 && outSize > 0 && factor > 0
    ensures AxisOf(f, inSize, outSize, factor).Scale() == inSize as real / factor as real / outSize as real
  {
  }

  lemma QuotientAtMost(x: real, k: real, bound: real)
    requires k > 0.0 && x <= bound * k
    ensures x / k <= bound
  {
    assert x / k * k == x;
    Below(x / k, bound, k);
  }

  /** Without pre-reduction the scale is the ratio of the sizes. */
  lemma PlainScale(f: Filter, inSize: nat, outSize: nat)
    requires inSize > 0 && 0 < outSize && inSize <= 128 * outSize
    ensures ShortWindows(AxisOf(f, inSize, outSize, 1))
  {
    ScaleOf(f, inSize, outSize, 1);
    assert inSize as real / 1.0 == inSize as real;
    QuotientAtMost(inSize as real, outSize as real, 128.0);
    ModestScale(AxisOf(f, inSize, outSize, 1));
  }

  /** The pre-reduction leaves at most four pixels for one. */
  lemma ReducedScale(f: Filter, inSize: nat, outSize: nat)
    requires inSize > 0 && outSize > 0
    ensures ShortWindows(AxisOf(f, inSize, outSize, Factor(inSize, outSize, Some(2.0))))
  {
    var k := Factor(inSize, outSize, Some(2.0));
    var ratio := inSize as real / outSize as real;
    ScaleOf(f, inSize, outSize, k);
    assert ratio < 4.0 * k as real by {
      assert ratio / 2.0 < k as real + 1.0;
    }
    Exchange(inSize as real, outSize as real, k as real);
    QuotientAtMost(ratio, k as real, 4.0);
    ModestScale(AxisOf(f, inSize, outSize, k));
  }

  lemma Exchange(x: real, a: real, b: real)
    requires a > 0.0 && b > 0.0
    ensures x / a / b == x / b / a
  {
    var p, q := x / a / b, x / b / a;
    assert p * b * a == x / a * a == x;
    assert q * a * b == x / b * b == x;
    assert p * b * a == p * (a * b) && q * a * b == q * (a * b);
    assert (p - q) * (a * b) == 0.0;
    assert a * b > 0.0;
  }

  lemma RatioBelow(inSize: nat, outSize: nat, k: nat)
    requires outSize > 0 && inSize < k * outSize
    ensures 0.0 <= inSize as real / outSize as real < k as real
  {
    var ratio := inSize as real / outSize as real;
    assert ratio * outSize as real == inSize as real;
    assert (k * outSize) as real == k as real * outSize as real;
    Below(ratio, k as real, outSize as real);
    Below(0.0, ratio, outSize as real);
  }

  /** The factor for an axis is small when the axis does not shrink much. */
  lemma FactorUpTo(inSize: nat, outSize: nat, bound: nat)
    requires outSize > 0 && bound >= 1 && inSize < 2 * (bound + 1) * outSize
    ensures Factor(inSize, outSize, Some(2.0)) <= bound
  {
    RatioBelow(inSize, outSize, 2 * (bound + 1));
  }

  /** Pre-reduction and resampling keep a flat channel. */
  lemma FlatResized(src: Plane, outW: nat, outH: nat, f: Filter, gap: Option<real>, b: nat, v: nat)
    requires Nonempty(src) && outW > 0 && outH > 0 && (gap.Some? ==> gap.value > 0.0)
    requires Factor(src.w, outW, gap) * Factor(src.h, outH, gap) <= 32832
    requires ShortWindows(AxisOf(f, src.w, outW, Factor(src.w, outW, gap)))
    requires ShortWindows(AxisOf(f, src.h, outH, Factor(src.h, outH, gap)))
    requires v <= 255 && Flat(src, b, v)
    ensures Flat(Resized(src, outW, outH, f, gap), b, v)
  {
    var fx, fy := Factor(src.w, outW, gap), Factor(src.h, outH, gap);
    var cur := PreReduced(src, fx, fy);
    if fx > 1 || fy > 1 {
      forall y: nat, x: nat | Inside(cur, y, x, b) ensures At(cur, y, x, b) == v {
        B.FlatReduces(src, fx, fy, v, y, x, b);
      }
    }
    FlatStaysFlat(cur, AxisOf(f, src.w, outW, fx), AxisOf(f, src.h, outH, fy), b, v);
  }

  /** A side of the short-side resize is never shrunk more than 128 times. */
  lemma ShortSideScale(w: nat, h: nat)
    requires w > 0 && h > 0 && w * h <= MAX_PIXELS
    ensures var (ow, oh) := ShortSideSize(w, h, SIDE); ow > 0 && oh > 0 && w <= 128 * ow && h <= 128 * oh
  {
    if w <= h {
      LongSideScale(h, w);
    } else {
      assert w * h == h * w;
      LongSideScale(w, h);
    }
  }

  lemma LongSideScale(long: nat, short: nat)
    requires 0 < short <= long && short * long <= MAX_PIXELS
    ensures Stretched(SIDE, long, short) >= SIDE
    ensures long <= 128 * Stretched(SIDE, long, short) && short <= 128 * SIDE
  {
    StretchedIsLong(SIDE, long, short);
    if short <= SIDE {
      B.TimesUp(short, SIDE, long);
      AtLeastQuotient(SIDE * long, short, long);
    } else {
      B.TimesUp(SIDE, short, long);
    }
  }

  lemma FlatShortSide(crop: Plane, b: nat, v: nat)
    requires Rgb(crop) && Nonempty(crop) && RustAccepts(crop.w, crop.h) && crop.w * crop.h <= MAX_PIXELS
    requires v <= 255 && Flat(crop, b, v)
    ensures Flat(ShortSided(crop), b, v)
  {
    ShortSideScale(crop.w, crop.h);
    var (ow, oh) := ShortSideSize(crop.w, crop.h, SIDE);
    PlainScale(Bilinear, crop.w, ow);
    PlainScale(Bilinear, crop.h, oh);
    FlatResized(crop, ow, oh, Bilinear, None, b, v);
  }

  /** The blocks of the thumbnail's pre-reduction are small. */
  lemma ThumbnailBlocks(w: nat, h: nat)
    requires w >= SIDE && h >= SIDE && (w == SIDE || h == SIDE) && w * h <= MAX_PIXELS
    ensures var (tw, th) := ThumbnailSize(w, h, SIDE);
            && tw > 0 && th > 0
            && Factor(w, tw, Some(2.0)) * Factor(h, th, Some(2.0)) <= 32832
  {
    ThumbnailFits(w, h, SIDE);
    var (tw, th) := ThumbnailSize(w, h, SIDE);
    if w == SIDE {
      FactorUpTo(w, tw, 192);
      FactorUpTo(h, th, 57);
    } else {
      FactorUpTo(w, tw, 57);
      FactorUpTo(h, th, 192);
    }
    SmallProduct(Factor(w, tw, Some(2.0)), Factor(h, th, Some(2.0)), w == SIDE);
  }

  lemma SmallProduct(a: nat, b: nat, tall: bool)
    requires if tall then a <= 192 && b <= 57 else a <= 57 && b <= 192
    ensures a * b <= 32832
  {
    B.TimesUp(a, if tall then 192 else 57, b);
  }

  lemma FlatThumbnail(p: Plane, b: nat, v: nat)
    requires Rgb(p) && p.w >= SIDE && p.h >= SIDE && (p.w == SIDE || p.h == SIDE) && p.w * p.h <= MAX_PIXELS
    requires v <= 255 && Flat(p, b, v)
    ensures Flat(Thumbed(p), b, v)
  {
    ThumbnailFits(p.w, p.h, SIDE);
    ThumbnailBlocks(p.w, p.h);
    var (tw, th) := ThumbnailSize(p.w, p.h, SIDE);
    ReducedScale(Bicubic, p.w, tw);
    ReducedScale(Bicubic, p.h, th);
    FlatResized(p, tw, th, Bicubic, Some(2.0), b, v);
  }

  /** Whatever its size, a crop that the guards accept keeps a flat channel through both
   *  resizes: on the canvas the image shows that value and the rest is black. */
  lemma FlatCropIsKept(crop: Plane, b: nat, v: nat, y: nat, x: nat)
    requires Rgb(crop) && Nonempty(crop) && RustAccepts(crop.w, crop.h) && crop.w * crop.h <= MAX_PIXELS
    requires v <= 255 && Flat(crop, b, v) && y < SIDE && x < SIDE && b < 3
    ensures Flat(Thumbed(ShortSided(crop)), b, v)
    ensures var t := Thumbed(ShortSided(crop));
            var top, left := Margin(SIDE, t.h), Margin(SIDE, t.w);
            At(Transformed(crop), y, x, b) == if top <= y < top + t.h && left <= x < left + t.w then v else 0
  {
    AcceptedResize(crop.w, crop.h);
    FlatShortSide(crop, b, v);
    var p := ShortSided(crop);
    FlatThumbnail(p, b, v);
    var t := Thumbed(p);
    assert At(Transformed(crop), y, x, b) == CanvasAt(t, SIDE, t.h, y, x, b);
  }

  lemma OneLuma(p: Plane, red: int, green: int, blue: int, y: nat, x: nat)
    requires Rgb(p) && Flat(p, 0, red) && Flat(p, 1, green) && Flat(p, 2, blue) && y < p.h && x < p.w
    ensures LumaAt(p, y, x) == PilLuma(red, green, blue)
  {
    assert At(p, y, x, 0) == red && At(p, y, x, 1) == green && At(p, y, x, 2) == blue;
  }

  lemma OneLumaHasNoRange(p: Plane, luma: int, lo: int, hi: int)
    requires Rgb(p) && lo < hi
    requires forall y: nat, x: nat :: y < p.h && x < p.w ==> LumaAt(p, y, x) == luma
    ensures !Range(p, lo, hi)
  {
  }

  /** An image of one colour has no ink and is cropped to itself. */
  lemma OneColourIsNotCropped(p: Plane, crop: Plane, red: int, green: int, blue: int)
    requires Rgb(p) && Flat(p, 0, red) && Flat(p, 1, green) && Flat(p, 2, blue) && IsCrop(p, crop)
    ensures crop == p
  {
    forall y: nat, x: nat | y < p.h && x < p.w ensures LumaAt(p, y, x) == PilLuma(red, green, blue) {
      OneLuma(p, red, green, blue, y, x);
    }
    forall lo, hi | lo < hi ensures !Range(p, lo, hi) {
      OneLumaHasNoRange(p, PilLuma(red, green, blue), lo, hi);
    }
  }

  /** End to end: a buffer of one colour that the guards accept ends as that colour in the
   *  middle of the black canvas, channel by channel. */
  lemma OneColourIsKept(p: Plane, crop: Plane, colour: seq<nat>, b: nat, y: nat, x: nat)
    requires BufferOk(p.w, p.h, p.data) && Rgb(p) && |colour| == 3 && b < 3 && y < SIDE && x < SIDE
    requires forall c: nat :: c < 3 ==> colour[c] <= 255 && Flat(p, c, colour[c])
    requires IsCrop(p, crop) && Rgb(crop) && Nonempty(crop) && RustAccepts(crop.w, crop.h)
    ensures var t := Thumbed(ShortSided(crop));
            var top, left := Margin(SIDE, t.h), Margin(SIDE, t.w);
            At(Transformed(crop), y, x, b)
            == if top <= y < top + t.h && left <= x < left + t.w then colour[b] else 0
  {
    OneColourIsNotCropped(p, crop, colour[0], colour[1], colour[2]);
    FlatCropIsKept(crop, b, colour[b], y, x);
  }
}
