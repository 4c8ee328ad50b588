/** What the grey levels, the ink test and the centring of
 *  crates/formula-texo/src/preprocess.rs amount to. */
module PreprocessingLaws {
  import opened Kernels
  import opened Planes
  import opened Preprocessing

  /** Both grey kernels are the ITU-R 601 luma, rounded. */
  lemma LumaIsWeighted(r: int, g: int, b: int)
    requires Byte(r) && Byte(g) && Byte(b)
    ensures var luma := 0.299 * r as real + 0.587 * g as real + 0.114 * b as real;
            && luma - 0.51 < PilLuma(r, g, b) as real < luma + 0.51
            && luma - 0.52 < CvLuma(r, g, b) as real < luma + 0.52
  {
    Rounded(r * 19595 + g * 38470 + b * 7471, 0x1_0000, 0x8000, PilLuma(r, g, b));
    Rounded(r * 4899 + g * 9617 + b * 1868, 0x4000, 8192, CvLuma(r, g, b));
  }

  lemma Rounded(v: int, unit: int, half: int, q: int)
    requires unit > 0 && half * 2 == unit && q == (v + half) / unit
    ensures v - half < q * unit <= v + half
  {
  }

  /** Ink is what lies in the darker 200/255 of the range: the darkest level always does,
   *  the brightest never. */
  lemma InkIff(luma: int, lo: int, hi: int)
    requires lo < hi
    ensures IsInk(luma, lo, hi) <==> 51 * (luma - lo) < 40 * (hi - lo)
    ensures IsInk(lo, lo, hi) && !IsInk(hi, lo, hi)
  {
    InkScaled(luma - lo, hi - lo);
    InkScaled(0, hi - lo);
    InkScaled(hi - lo, hi - lo);
  }

  lemma InkScaled(v: int, span: int)
    requires span > 0
    ensures v as real / span as real * 255.0 < 200.0 <==> 51 * v < 40 * span
  {
    var q, w := v as real / span as real, span as real;
    assert q * w == v as real;
    assert (200.0 - q * 255.0) * w == 200.0 * w - 255.0 * (q * w);
    SignOfProduct(200.0 - q * 255.0, w);
  }

  lemma SignOfProduct(a: real, w: real)
    requires w > 0.0
    ensures a > 0.0 <==> a * w > 0.0
  {
  }

  /** The image stands in the middle: the margins on both sides differ by at most one pixel,
   *  the smaller one first, and everything around the image is black. */
  lemma CentredInMiddle(p: Plane, size: nat, y: nat, x: nat, c: nat)
    requires Rgb(p) && p.w <= size && p.h <= size && y < size && x < size && c < 3
    ensures exists top: nat, left: nat ::
              && (size - p.h - 2 * top == 0 || size - p.h - 2 * top == 1)
              && (size - p.w - 2 * left == 0 || size - p.w - 2 * left == 1)
              && At(Centred(p, size), y, x, c)
                 == if top <= y < top + p.h && left <= x < left + p.w then At(p, y - top, x - left, c) else 0
  {
    var top, left := Margin(size, p.h), Margin(size, p.w);
    assert At(Centred(p, size), y, x, c) == CanvasAt(p, size, p.h, y, x, c);
    assert size - p.h - 2 * top == 0 || size - p.h - 2 * top == 1;
    assert size - p.w - 2 * left == 0 || size - p.w - 2 * left == 1;
  }
}
