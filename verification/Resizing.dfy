/** `resize`, `thumbnail` and `resize_short_side` of crates/formula-texo/src/resample.rs. */
module Resizing {
  import opened Wrappers
  import opened Kernels
  import opened Planes
  import opened Resampling
  import B = BoxReduction
  import L = ResamplingLoops

  /** How many source pixels one pixel of the pre-reduced image covers. */
  function Factor(inSize: nat, outSize: nat, gap: Option<real>): (f: nat)
    requires outSize > 0 && (gap.Some? ==> gap.value > 0.0)
    ensures f >= 1
  {
    if gap.None? then 1
    else
      var f := Trunc(inSize as real / outSize as real / gap.value);
      if f < 1 then 1 else f
  }

  /** The axis on which the reduced image is resampled: its box ends where the original
   *  image ends, inside the last reduced pixel. */
  function AxisOf(f: Filter, inSize: nat, outSize: nat, factor: nat): (a: Axis)
    requires inSize > 0 && outSize > 0 && factor > 0
    ensures a.Valid() && a.inSize == B.CeilDiv(inSize, factor) && a.outSize == outSize
  {
    BoxInside(inSize, factor);
    Axis(f, B.CeilDiv(inSize, factor), 0.0, inSize as real / factor as real, outSize)
  }

  lemma BoxInside(n: nat, k: nat)
    requires n > 0 && k > 0
    ensures 0.0 < n as real / k as real <= B.CeilDiv(n, k) as real
    ensures B.CeilDiv(n, k) as real - 1.0 < n as real / k as real
  {
    var m := n + k - 1;
    var c := B.CeilDiv(n, k);
    B.Euclid(m, k);
    assert k * c >= n && k * c < n + k;
    var r := n as real / k as real;
    assert r * k as real == n as real;
    assert (k * c) as real == k as real * c as real;
    Below(r, c as real, k as real);
    Below(c as real - 1.0, r, k as real);
    assert (c as real - 1.0) * k as real == k as real * c as real - k as real;
  }

  lemma Below(x: real, y: real, k: real)
    requires k > 0.0
    ensures x * k <= y * k ==> x <= y
    ensures x * k < y * k ==> x < y
  {
    if x > y { assert (x - y) * k > 0.0; }
  }

  lemma WholeBlocks(n: nat)
    ensures B.CeilDiv(n, 1) == n
  {
  }

  predicate Nonempty(p: Plane) {
    p.Valid() && p.w > 0 && p.h > 0
  }

  /** The image after the optional pre-reduction. */
  function PreReduced(src: Plane, fx: nat, fy: nat): (p: Plane)
    requires Nonempty(src) && fx > 0 && fy > 0
    ensures p.Valid() && p.w == B.CeilDiv(src.w, fx) && p.h == B.CeilDiv(src.h, fy) && p.c == src.c
  {
    WholeBlocks(src.w);
    WholeBlocks(src.h);
    if fx > 1 || fy > 1 then B.Reduced(src, fx, fy) else src
  }

  function Resized(src: Plane, outW: nat, outH: nat, f: Filter, gap: Option<real>): (p: Plane)
    requires Nonempty(src) && outW > 0 && outH > 0 && (gap.Some? ==> gap.value > 0.0)
    ensures Nonempty(p) && p.w == outW && p.h == outH && p.c == src.c
  {
    if src.w == outW && src.h == outH then src
    else
      var fx, fy := Factor(src.w, outW, gap), Factor(src.h, outH, gap);
      TwoPass(PreReduced(src, fx, fy), AxisOf(f, src.w, outW, fx), AxisOf(f, src.h, outH, fy))
  }

  method Resize(src: Plane, outW: nat, outH: nat, f: Filter, gap: Option<real>) returns (out: Plane)
    requires Nonempty(src) && outW > 0 && outH > 0 && (gap.Some? ==> gap.value > 0.0)
    ensures out == Resized(src, outW, outH, f, gap)
  {
    if src.w == outW && src.h == outH {
      return src;
    }
    var cur := src;
    var fx, fy := 1, 1;
    if gap.Some? {
      fx := Factor(src.w, outW, gap);
      fy := Factor(src.h, outH, gap);
      if fx > 1 || fy > 1 {
        cur := B.Reduce(src, fx, fy);
      }
    }
    assert cur == PreReduced(src, fx, fy);
    out := L.Resample(cur, AxisOf(f, src.w, outW, fx), AxisOf(f, src.h, outH, fy));
  }

  // ----- the sizes -----

  /** Floor or ceiling, whichever the key prefers; never below one. */
  function RoundAspect(number: real, key: nat -> real): (n: nat)
    requires number >= 0.0
    ensures n >= 1 && (number >= 1.0 ==> number - 1.0 < n as real < number + 1.0)
    ensures number < 1.0 ==> n == 1
  {
    CeilUp(number);
    var lo, hi := number.Floor, Ceil(number);
    var best := if key(hi) < key(lo) then hi else lo;
    if best < 1 then 1 else best
  }

  lemma RoundAspectUpTo(number: real, key: nat -> real, bound: nat)
    requires 0.0 <= number <= bound as real && bound >= 1
    ensures 1 <= RoundAspect(number, key) <= bound
  {
    CeilUp(number);
  }

  /** Of floor and ceiling the key's choice is taken, a tie goes to the floor, and the
   *  result is that choice or one, whichever is larger. */
  lemma RoundAspectPrefers(number: real, key: nat -> real)
    requires number >= 0.0
    ensures exists best: nat ::
              && (best == number.Floor || best == Ceil(number))
              && key(best) <= key(number.Floor) && key(best) <= key(Ceil(number))
              && (key(number.Floor) <= key(Ceil(number)) ==> best == number.Floor)
              && RoundAspect(number, key) == if best < 1 then 1 else best
  {
    CeilUp(number);
    var lo: nat, hi: nat := number.Floor, Ceil(number);
    var best := if key(hi) < key(lo) then hi else lo;
    assert key(best) <= key(lo);
  }

  function Distance(a: real, b: real): real {
    if a < b then b - a else a - b
  }

  lemma AspectOf(w: real, h: real)
    requires w > 0.0 && h > 0.0
    ensures w / h > 0.0 && (w <= h <==> w / h <= 1.0)
  {
    var a := w / h;
    assert a * h == w;
    Below(a, 1.0, h);
    Below(0.0, a, h);
    if a <= 1.0 { Scaled(a, 1.0, h); }
    if a <= 0.0 { Scaled(a, 0.0, h); }
  }

  lemma Shrunk(x: real, a: real)
    requires x >= 0.0 && 0.0 < a
    ensures a <= 1.0 ==> 0.0 <= x * a <= x
    ensures a >= 1.0 ==> 0.0 <= x / a <= x
  {
    if a <= 1.0 {
      Scaled(a, 1.0, x);
      Scaled(0.0, a, x);
    } else {
      var q := x / a;
      assert q * a == x;
      Scaled(1.0, a, x);
      Below(q, x, a);
      Below(0.0, q, a);
    }
  }

  function WidthKey(side: nat, aspect: real): nat -> real
    requires side > 0
  {
    n => Distance(aspect, n as real / side as real)
  }

  function HeightKey(side: nat, aspect: real): nat -> real {
    n => if n == 0 then 0.0 else Distance(aspect, side as real / n as real)
  }

  function TallWidth(side: nat, aspect: real): (n: nat)
    requires side > 0 && 0.0 < aspect <= 1.0
    ensures 1 <= n <= side
  {
    Shrunk(side as real, aspect);
    RoundAspectUpTo(side as real * aspect, WidthKey(side, aspect), side);
    RoundAspect(side as real * aspect, WidthKey(side, aspect))
  }

  function WideHeight(side: nat, aspect: real): (n: nat)
    requires side > 0 && 1.0 < aspect
    ensures 1 <= n <= side
  {
    Shrunk(side as real, aspect);
    RoundAspectUpTo(side as real / aspect, HeightKey(side, aspect), side);
    RoundAspect(side as real / aspect, HeightKey(side, aspect))
  }

  lemma QuotientUp(a: real, b: real, k: real)
    requires a <= b && k > 0.0
    ensures a / k <= b / k
  {
    assert a / k * k == a && b / k * k == b;
    Below(a / k, b / k, k);
  }

  lemma QuotientIs(x: real, k: real, q: real)
    requires k > 0.0 && q * k == x
    ensures x / k == q
  {
    assert x / k * k == x;
    Below(x / k, q, k);
    Below(q, x / k, k);
  }

  lemma QuotientDown(x: real, m: real, n: real)
    requires x > 0.0 && 0.0 < m <= n
    ensures x / n <= x / m
  {
    var q := x / n;
    assert q * n == x;
    Below(0.0, q, n);
    Scaled(m, n, q);
    QuotientUp(q * m, x, m);
    assert q * m / m == q;
  }

  /** Below its floor and above its ceiling the quotient moves away from the aspect. */
  lemma WidthKeyBest(side: nat, aspect: real, n: nat)
    requires side > 0 && aspect > 0.0
    ensures var number, key := side as real * aspect, WidthKey(side, aspect);
            && number > 0.0
            && (n <= number.Floor ==> key(number.Floor) <= key(n))
            && (n >= Ceil(number) ==> key(Ceil(number)) <= key(n))
  {
    var s, number := side as real, side as real * aspect;
    CeilUp(number);
    assert aspect * s == s * aspect;
    QuotientIs(number, s, aspect);
    if n <= number.Floor {
      QuotientUp(number.Floor as real, number, s);
      QuotientUp(n as real, number.Floor as real, s);
    }
    if n >= Ceil(number) {
      QuotientUp(number, Ceil(number) as real, s);
      QuotientUp(Ceil(number) as real, n as real, s);
    }
  }

  lemma HeightKeyBest(side: nat, aspect: real, n: nat)
    requires side > 0 && aspect > 0.0 && n >= 1
    ensures var number, key := side as real / aspect, HeightKey(side, aspect);
            && number > 0.0
            && (n <= number.Floor ==> key(number.Floor) <= key(n))
            && (n >= Ceil(number) ==> key(Ceil(number)) <= key(n))
  {
    var s, number := side as real, side as real / aspect;
    CeilUp(number);
    assert number * aspect == s;
    Below(0.0, number, aspect);
    assert aspect * number == number * aspect;
    QuotientIs(s, number, aspect);
    if n <= number.Floor {
      QuotientDown(s, number.Floor as real, number);
      QuotientDown(s, n as real, number.Floor as real);
    }
    if n >= Ceil(number) {
      QuotientDown(s, number, Ceil(number) as real);
      QuotientDown(s, Ceil(number) as real, n as real);
    }
  }

  /** A choice that is best on both sides of the number is best. */
  lemma RoundAspectIsBest(number: real, key: nat -> real, n: nat)
    requires number > 0.0 && n >= 1
    requires n <= number.Floor ==> key(number.Floor) <= key(n)
    requires n >= Ceil(number) ==> key(Ceil(number)) <= key(n)
    requires number < 1.0 ==> key(1) <= key(n)
    ensures key(RoundAspect(number, key)) <= key(n)
  {
    CeilUp(number);
  }

  /** No other width of a tall thumbnail is closer to the image's aspect ratio. */
  lemma TallWidthIsBest(side: nat, aspect: real, n: nat)
    requires side > 0 && 0.0 < aspect <= 1.0 && n >= 1
    ensures Distance(aspect, TallWidth(side, aspect) as real / side as real)
         <= Distance(aspect, n as real / side as real)
  {
    var number, key := side as real * aspect, WidthKey(side, aspect);
    WidthKeyBest(side, aspect, n);
    CeilUp(number);
    RoundAspectIsBest(number, key, n);
    assert key(n) == Distance(aspect, n as real / side as real);
  }

  /** No other height of a wide thumbnail is closer to the image's aspect ratio. */
  lemma WideHeightIsBest(side: nat, aspect: real, n: nat)
    requires side > 0 && 1.0 < aspect && n >= 1
    ensures Distance(aspect, side as real / WideHeight(side, aspect) as real)
         <= Distance(aspect, side as real / n as real)
  {
    var number, key := side as real / aspect, HeightKey(side, aspect);
    HeightKeyBest(side, aspect, n);
    CeilUp(number);
    RoundAspectIsBest(number, key, n);
    assert key(n) == Distance(aspect, side as real / n as real);
  }

  /** The size of the thumbnail of an image of `w` by `h` pixels. */
  function ThumbnailSize(w: nat, h: nat, side: nat): (nat, nat)
    requires w > 0 && h > 0 && side > 0
  {
    AspectOf(w as real, h as real);
    var aspect := w as real / h as real;
    if side >= w && side >= h then (w, h)
    else if 1.0 >= aspect then (TallWidth(side, aspect), side)
    else (side, WideHeight(side, aspect))
  }

  /** A thumbnail fits the square and is not empty; of an image that does not fit, one
   *  side fills the square. */
  lemma ThumbnailFits(w: nat, h: nat, side: nat)
    requires w > 0 && h > 0 && side > 0
    ensures var (tw, th) := ThumbnailSize(w, h, side);
            && 1 <= tw <= side && 1 <= th <= side
            && (w <= side && h <= side ==> tw == w && th == h)
            && (w > side || h > side ==> (if w <= h then th == side else tw == side))
  {
    AspectOf(w as real, h as real);
  }

  /** No other size that fills the square is closer to the aspect ratio of an image that
   *  does not fit. */
  lemma ThumbnailKeepsAspect(w: nat, h: nat, side: nat, n: nat)
    requires w > 0 && h > 0 && side > 0 && n >= 1 && (w > side || h > side)
    ensures var aspect, (tw, th) := w as real / h as real, ThumbnailSize(w, h, side);
            && tw >= 1 && th >= 1
            && (w <= h ==> th == side && Distance(aspect, tw as real / side as real)
                                         <= Distance(aspect, n as real / side as real))
            && (w > h ==> tw == side && Distance(aspect, side as real / th as real)
                                        <= Distance(aspect, side as real / n as real))
  {
    AspectOf(w as real, h as real);
    var aspect := w as real / h as real;
    if w <= h {
      TallWidthIsBest(side, aspect, n);
    } else {
      WideHeightIsBest(side, aspect, n);
    }
  }

  method Thumbnail(src: Plane, side: nat) returns (out: Plane)
    requires Nonempty(src) && side > 0
    ensures Nonempty(out) && (out.w, out.h) == ThumbnailSize(src.w, src.h, side) && out.c == src.c
    ensures out == Resized(src, out.w, out.h, Bicubic, Some(2.0))
  {
    if side >= src.w && side >= src.h {
      return src;
    }
    ThumbnailFits(src.w, src.h, side);
    var (fw, fh) := ThumbnailSize(src.w, src.h, side);
    if fw == src.w && fh == src.h {
      return src;
    }
    out := Resize(src, fw, fh, Bicubic, Some(2.0));
  }

  /** The size at which the short side is `size`. */
  function ShortSideSize(w: nat, h: nat, size: nat): (nat, nat)
    requires w > 0 && h > 0 && size > 0
  {
    if w <= h then (size, LongSide(size, h, w)) else (LongSide(size, w, h), size)
  }

  function LongSide(size: nat, long: nat, short: nat): (n: nat)
    requires short > 0
    ensures n == Stretched(size, long, short)
  {
    StretchedIsFloor(size, long, short);
    (size as real * long as real / short as real).Floor
  }

  function Stretched(size: nat, long: nat, short: nat): nat
    requires short > 0
  {
    size * long / short
  }

  lemma RealQuotient(v: nat, k: nat)
    requires k > 0
    ensures (v as real / k as real).Floor == v / k
  {
    var q, r := v / k, v as real / k as real;
    B.Euclid(v, k);
    assert r * k as real == v as real;
    assert q as real * k as real == (k * q) as real;
    Below(q as real, r, k as real);
    assert (q as real + 1.0) * k as real == q as real * k as real + k as real;
    Below(r, q as real + 1.0, k as real);
    FloorIs(r, q);
  }

  lemma FloorIs(r: real, q: int)
    requires q as real <= r < q as real + 1.0
    ensures r.Floor == q
  {
  }

  /** The source's real quotient is the integer one. */
  lemma StretchedIsFloor(size: nat, long: nat, short: nat)
    requires short > 0
    ensures (size as real * long as real / short as real).Floor == Stretched(size, long, short)
  {
    assert size as real * long as real == (size * long) as real;
    RealQuotient(size * long, short);
  }

  /** The long side is never made shorter than the short one. */
  lemma StretchedIsLong(size: nat, long: nat, short: nat)
    requires 0 < short <= long
    ensures Stretched(size, long, short) >= size
  {
    B.TimesUp(short, long, size);
    AtLeastQuotient(size * long, short, size);
  }

  lemma AtLeastQuotient(v: nat, k: nat, q: nat)
    requires k > 0 && k * q <= v
    ensures q <= v / k
  {
    B.Euclid(v, k);
    TimesBelow(v / k, q, k);
    assert v / k * k == k * (v / k) && q * k == k * q;
  }

  method ResizeShortSide(src: Plane, size: nat) returns (out: Plane)
    requires Nonempty(src) && size > 0
    ensures Nonempty(out) && (out.w, out.h) == ShortSideSize(src.w, src.h, size) && out.c == src.c
    ensures out == Resized(src, out.w, out.h, Bilinear, None)
  {
    var w, h := src.w, src.h;
    var short, long := if w <= h then w else h, if w <= h then h else w;
    StretchedIsLong(size, long, short);
    if (w <= h && w == size) || (h <= w && h == size) {
      SameStretch(size, long);
      return src;
    }
    var ow, oh;
    if w < h {
      ow, oh := size, LongSide(size, h, w);
    } else {
      ow, oh := LongSide(size, w, h), size;
      if w == h { SameSides(size, w); }
    }
    ow, oh := if ow < 1 then 1 else ow, if oh < 1 then 1 else oh;
    out := Resize(src, ow, oh, Bilinear, None);
  }

  lemma SameSides(size: nat, n: nat)
    requires n > 0
    ensures Stretched(size, n, n) == size
  {
    Division(n, size, 0);
  }

  lemma SameStretch(size: nat, long: nat)
    requires size > 0
    ensures Stretched(size, long, size) == long
  {
    assert size * long == long * size + 0;
    Division(size, long, 0);
  }
}
