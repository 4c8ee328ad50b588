/** A step edge of four pixels, halved: every stage of the resampling of
 *  crates/formula-texo/src/resample.rs worked out to the byte, for both filters and both
 *  passes. The windows are cut off at the line's ends, and the filters are stretched. */
module ResamplingExamples {
  import opened Kernels
  import opened FixedPoint
  import opened Planes
  import opened Resampling

  const EDGE: seq<int> := [0, 0, 255, 255]
  const WHOLE := Axis(Bilinear, 1, 0.0, 1.0, 1)

  function Halved(f: Filter): (a: Axis)
    ensures a.Valid() && a.Scale() == 2.0 && a.FilterScale() == 2.0
  {
    Axis(f, 4, 0.0, 4.0, 2)
  }

  function CenterOf(xx: nat): real {
    if xx == 0 then 1.0 else 3.0
  }

  function LoOf(f: Filter, xx: nat): nat {
    if f == Bilinear && xx == 1 then 1 else 0
  }

  function LenOf(f: Filter): nat {
    if f == Bicubic then 4 else 3
  }

  /** The window of one output pixel, with a filter stretched to twice its width. */
  ghost predicate WindowIs(a: Axis, xx: nat, center: real, lo: nat, len: nat) {
    && a.Valid() && a.FilterScale() == 2.0
    && a.Center(xx) == center && a.Lo(xx) == lo && a.Len(xx) == len
  }

  lemma HalvedWindow(f: Filter, xx: nat)
    requires xx < 2
    ensures WindowIs(Halved(f), xx, CenterOf(xx), LoOf(f, xx), LenOf(f))
  {
    var a := Halved(f);
    assert a.Center(xx) == CenterOf(xx);
    assert a.Reach() == if f == Bicubic then 4.0 else 2.0;
  }

  lemma HalfTap(f: Filter, d: real)
    ensures Tap(Shape(f), 1.0 / 2.0)(d) == Eval(f, d * 0.5)
  {
    assert Units(d, 1.0 / 2.0) == d * 0.5;
  }

  /** The filter stretched to twice its width. */
  function Stretched(f: Filter): real -> real {
    Tap(Shape(f), 1.0 / 2.0)
  }

  lemma StretchedAt(f: Filter, d: real)
    ensures Stretched(f)(d + d) == Eval(f, d)
  {
    HalfTap(f, d + d);
    assert (d + d) * 0.5 == d;
  }

  lemma BicubicTaps()
    ensures Stretched(Bicubic)(-0.5) == 0.8671875 && Stretched(Bicubic)(0.5) == 0.8671875
    ensures Stretched(Bicubic)(-1.5) == 0.2265625 && Stretched(Bicubic)(1.5) == 0.2265625
    ensures Stretched(Bicubic)(-2.5) == -0.0703125 && Stretched(Bicubic)(2.5) == -0.0703125
  {
    StretchedAt(Bicubic, -0.25);
    StretchedAt(Bicubic, 0.25);
    StretchedAt(Bicubic, -0.75);
    StretchedAt(Bicubic, 0.75);
    StretchedAt(Bicubic, -1.25);
    StretchedAt(Bicubic, 1.25);
  }

  lemma BilinearTaps()
    ensures Stretched(Bilinear)(-0.5) == 0.75 && Stretched(Bilinear)(0.5) == 0.75
    ensures Stretched(Bilinear)(-1.5) == 0.25 && Stretched(Bilinear)(1.5) == 0.25
  {
    StretchedAt(Bilinear, -0.25);
    StretchedAt(Bilinear, 0.25);
    StretchedAt(Bilinear, -0.75);
    StretchedAt(Bilinear, 0.75);
  }

  lemma CurveOfFour(tap: real -> real, center: real, w: seq<real>)
    requires |w| == 4 && tap(0.5 - center) == w[0] && tap(1.5 - center) == w[1]
    requires tap(2.5 - center) == w[2] && tap(3.5 - center) == w[3]
    ensures Curve(tap, center, 0, 4) == w
  {
    var s := Curve(tap, center, 0, 4);
    assert 0 as real + 0 as real - center + 0.5 == 0.5 - center;
    assert 1 as real + 0 as real - center + 0.5 == 1.5 - center;
    assert 2 as real + 0 as real - center + 0.5 == 2.5 - center;
    assert 3 as real + 0 as real - center + 0.5 == 3.5 - center;
  }

  lemma CurveOfThree(tap: real -> real, center: real, lo: nat, w: seq<real>)
    requires |w| == 3 && tap(lo as real + 0.5 - center) == w[0] && tap(lo as real + 1.5 - center) == w[1]
    requires tap(lo as real + 2.5 - center) == w[2]
    ensures Curve(tap, center, lo, 3) == w
  {
    var s := Curve(tap, center, lo, 3);
    assert 0 as real + lo as real - center + 0.5 == lo as real + 0.5 - center;
    assert 1 as real + lo as real - center + 0.5 == lo as real + 1.5 - center;
    assert 2 as real + lo as real - center + 0.5 == lo as real + 2.5 - center;
  }

  lemma SamplesOf(a: Axis, xx: nat, center: real, lo: nat, len: nat)
    requires WindowIs(a, xx, center, lo, len)
    ensures a.Samples(xx) == Curve(Stretched(a.filter), center, lo, len)
  {
  }

  lemma SamplesAre(f: Filter, xx: nat)
    requires xx < 2
    ensures Halved(f).Samples(xx) == Curve(Stretched(f), CenterOf(xx), LoOf(f, xx), LenOf(f))
  {
    HalvedWindow(f, xx);
    SamplesOf(Halved(f), xx, CenterOf(xx), LoOf(f, xx), LenOf(f));
  }

  lemma BicubicLeft()
    ensures Halved(Bicubic).Samples(0) == [0.8671875, 0.8671875, 0.2265625, -0.0703125]
  {
    SamplesAre(Bicubic, 0);
    BicubicTaps();
    CurveOfFour(Stretched(Bicubic), 1.0, [0.8671875, 0.8671875, 0.2265625, -0.0703125]);
  }

  lemma BicubicRight()
    ensures Halved(Bicubic).Samples(1) == [-0.0703125, 0.2265625, 0.8671875, 0.8671875]
  {
    SamplesAre(Bicubic, 1);
    BicubicTaps();
    CurveOfFour(Stretched(Bicubic), 3.0, [-0.0703125, 0.2265625, 0.8671875, 0.8671875]);
  }

  lemma BilinearLeft()
    ensures Halved(Bilinear).Samples(0) == [0.75, 0.75, 0.25]
  {
    SamplesAre(Bilinear, 0);
    BilinearTaps();
    CurveOfThree(Stretched(Bilinear), 1.0, 0, [0.75, 0.75, 0.25]);
  }

  lemma BilinearRight()
    ensures Halved(Bilinear).Samples(1) == [0.25, 0.75, 0.75]
  {
    SamplesAre(Bilinear, 1);
    BilinearTaps();
    CurveOfThree(Stretched(Bilinear), 3.0, 1, [0.25, 0.75, 0.75]);
  }

  lemma SumOfThree(a: real, b: real, c: real)
    ensures Sum([a, b, c]) == a + b + c
  {
    var s := [a, b, c];
    assert s[..2] == [a, b] && s[..2][..1] == [a] && s[..2][..1][..0] == [];
    assert Sum([a]) == a && Sum([a, b]) == a + b;
  }

  lemma SumOfFour(a: real, b: real, c: real, d: real)
    ensures Sum([a, b, c, d]) == a + b + c + d
  {
    var s := [a, b, c, d];
    assert s[..3] == [a, b, c];
    SumOfThree(a, b, c);
  }

  lemma RoundedIs(w: real, total: real, scaled: real, k: int)
    requires total > 0.0 && scaled * total == w * ONE as real
    requires if scaled < 0.0 then k <= 0 && k as real - 1.0 < scaled - 0.5 <= k as real
             else k >= 0 && k as real <= scaled + 0.5 < k as real + 1.0
    ensures RoundAway(Normal(w, total) * ONE as real) == k
  {
    var v := w / total * ONE as real;
    assert w / total * total == w;
    assert (v - scaled) * total == 0.0;
    assert v == scaled;
  }

  /** One weight in fixed point. */
  lemma WeightIs(s: seq<real>, x: nat, total: real, scaled: real, k: int)
    requires x < |s| && Sum(s) == total && total > 0.0 && scaled * total == s[x] * ONE as real
    requires if scaled < 0.0 then k <= 0 && k as real - 1.0 < scaled - 0.5 <= k as real
             else k >= 0 && k as real <= scaled + 0.5 < k as real + 1.0
    ensures FixedWeights(s)[x] == k
  {
    RoundedIs(s[x], total, scaled, k);
  }

  lemma BicubicWeights()
    ensures FixedWeights([0.8671875, 0.8671875, 0.2265625, -0.0703125]) == [1923834, 1923834, 502623, -155987]
    ensures FixedWeights([-0.0703125, 0.2265625, 0.8671875, 0.8671875]) == [-155987, 502623, 1923834, 1923834]
  {
    var left, right := [0.8671875, 0.8671875, 0.2265625, -0.0703125], [-0.0703125, 0.2265625, 0.8671875, 0.8671875];
    var most, some, less := 232783872.0 / 121.0, 60817408.0 / 121.0, -18874368.0 / 121.0;
    SumOfFour(0.8671875, 0.8671875, 0.2265625, -0.0703125);
    SumOfFour(-0.0703125, 0.2265625, 0.8671875, 0.8671875);
    WeightIs(left, 0, 1.890625, most, 1923834);
    WeightIs(left, 1, 1.890625, most, 1923834);
    WeightIs(left, 2, 1.890625, some, 502623);
    WeightIs(left, 3, 1.890625, less, -155987);
    WeightIs(right, 0, 1.890625, less, -155987);
    WeightIs(right, 1, 1.890625, some, 502623);
    WeightIs(right, 2, 1.890625, most, 1923834);
    WeightIs(right, 3, 1.890625, most, 1923834);
  }

  lemma BilinearWeights()
    ensures FixedWeights([0.75, 0.75, 0.25]) == [1797559, 1797559, 599186]
    ensures FixedWeights([0.25, 0.75, 0.75]) == [599186, 1797559, 1797559]
  {
    var left, right := [0.75, 0.75, 0.25], [0.25, 0.75, 0.75];
    var most, some := 12582912.0 / 7.0, 4194304.0 / 7.0;
    SumOfThree(0.75, 0.75, 0.25);
    SumOfThree(0.25, 0.75, 0.75);
    WeightIs(left, 0, 1.75, most, 1797559);
    WeightIs(left, 1, 1.75, most, 1797559);
    WeightIs(left, 2, 1.75, some, 599186);
    WeightIs(right, 0, 1.75, some, 599186);
    WeightIs(right, 1, 1.75, most, 1797559);
    WeightIs(right, 2, 1.75, most, 1797559);
  }

  lemma DotOfOne(k: seq<int>, a: int)
    requires |k| >= 1
    ensures Dot(k, [a]) == a * k[0]
  {
    assert [a][..0] == [];
    assert Dot(k, []) == 0;
  }

  lemma DotOfTwo(k: seq<int>, a: int, b: int)
    requires |k| >= 2
    ensures Dot(k, [a, b]) == a * k[0] + b * k[1]
  {
    assert [a, b][..1] == [a];
    DotOfOne(k, a);
  }

  lemma DotOfThree(k: seq<int>, a: int, b: int, c: int)
    requires |k| >= 3
    ensures Dot(k, [a, b, c]) == a * k[0] + b * k[1] + c * k[2]
  {
    assert [a, b, c][..2] == [a, b];
    DotOfTwo(k, a, b);
  }

  lemma DotOfFour(k: seq<int>, a: int, b: int, c: int, d: int)
    requires |k| >= 4
    ensures Dot(k, [a, b, c, d]) == a * k[0] + b * k[1] + c * k[2] + d * k[3]
  {
    assert [a, b, c, d][..3] == [a, b, c];
    DotOfThree(k, a, b, c);
  }

  lemma BlendOfFour(k: seq<int>, a: int, b: int, c: int, d: int, sum: int, v: int)
    requires |k| >= 4 && sum == HALF + a * k[0] + b * k[1] + c * k[2] + d * k[3]
    requires -SIGN <= sum < SIGN && 0 <= v <= 255 && v * ONE <= sum < (v + 1) * ONE
    ensures Blend(k, [a, b, c, d]) == v
  {
    DotOfFour(k, a, b, c, d);
    AccumulateExact(k, [a, b, c, d]);
  }

  lemma BlendOfThree(k: seq<int>, a: int, b: int, c: int, sum: int, v: int)
    requires |k| >= 3 && sum == HALF + a * k[0] + b * k[1] + c * k[2]
    requires -SIGN <= sum < SIGN && 0 <= v <= 255 && v * ONE <= sum < (v + 1) * ONE
    ensures Blend(k, [a, b, c]) == v
  {
    DotOfThree(k, a, b, c);
    AccumulateExact(k, [a, b, c]);
  }

  /** The two bytes that the halved edge becomes. */
  function HalvedEdge(f: Filter): seq<int> {
    if f == Bicubic then [21, 234] else [36, 219]
  }

  function HalvedKernel(f: Filter, xx: nat): seq<int>
    requires xx < 2
  {
    match f
    case Bicubic => if xx == 0 then [1923834, 1923834, 502623, -155987] else [-155987, 502623, 1923834, 1923834]
    case Bilinear => if xx == 0 then [1797559, 1797559, 599186] else [599186, 1797559, 1797559]
  }

  lemma KernelIs(f: Filter, xx: nat)
    requires xx < 2
    ensures FixedWeights(Halved(f).Samples(xx)) == HalvedKernel(f, xx)
  {
    match f
    case Bicubic => if xx == 0 { BicubicLeftKernel(); } else { BicubicRightKernel(); }
    case Bilinear => if xx == 0 { BilinearLeftKernel(); } else { BilinearRightKernel(); }
  }

  lemma BicubicLeftKernel()
    ensures FixedWeights(Halved(Bicubic).Samples(0)) == HalvedKernel(Bicubic, 0)
  {
    BicubicLeft();
    BicubicWeights();
  }

  lemma BicubicRightKernel()
    ensures FixedWeights(Halved(Bicubic).Samples(1)) == HalvedKernel(Bicubic, 1)
  {
    BicubicRight();
    BicubicWeights();
  }

  lemma BilinearLeftKernel()
    ensures FixedWeights(Halved(Bilinear).Samples(0)) == HalvedKernel(Bilinear, 0)
  {
    BilinearLeft();
    BilinearWeights();
  }

  lemma BilinearRightKernel()
    ensures FixedWeights(Halved(Bilinear).Samples(1)) == HalvedKernel(Bilinear, 1)
  {
    BilinearRight();
    BilinearWeights();
  }

  lemma EdgeBlend(f: Filter, xx: nat, k: seq<int>, px: seq<int>)
    requires xx < 2 && |px| == |HalvedKernel(f, xx)| <= |k| && k[..|px|] == HalvedKernel(f, xx)
    requires px == if f == Bicubic then [0, 0, 255, 255] else if xx == 0 then [0, 0, 255] else [0, 255, 255]
    ensures Blend(k, px) == HalvedEdge(f)[xx]
  {
    assert forall i :: 0 <= i < |px| ==> k[i] == HalvedKernel(f, xx)[i];
    match f
    case Bicubic =>
      BlendOfFour(k, 0, 0, 255, 255, if xx == 0 then 90489332 else 983252492, HalvedEdge(f)[xx]);
    case Bilinear =>
      BlendOfThree(k, 0, if xx == 0 then 0 else 255, 255, if xx == 0 then 154889582 else 918852242, HalvedEdge(f)[xx]);
  }

  lemma HalvedBlend(f: Filter, xx: nat, px: seq<int>)
    requires xx < 2
    requires px == if f == Bicubic then [0, 0, 255, 255] else if xx == 0 then [0, 0, 255] else [0, 255, 255]
    ensures |px| <= Halved(f).KSize() && Blend(Halved(f).Kernel(xx), px) == HalvedEdge(f)[xx]
  {
    WindowsFit(Halved(f), xx);
    KernelIs(f, xx);
    EdgeBlend(f, xx, Halved(f).Kernel(xx), px);
  }

  /** The pixels under a window of the halved edge. */
  lemma EdgeUnder(f: Filter, xx: nat)
    requires xx < 2
    ensures var lo, len := Halved(f).Lo(xx), Halved(f).Len(xx);
            && lo + len <= 4
            && EDGE[lo..lo + len]
               == if f == Bicubic then [0, 0, 255, 255] else if xx == 0 then [0, 0, 255] else [0, 255, 255]
  {
    HalvedWindow(f, xx);
    EdgeSlices(LoOf(f, xx), LenOf(f));
  }

  lemma EdgeSlices(lo: nat, len: nat)
    requires lo + len <= 4
    ensures (lo, len) == (0, 4) ==> EDGE[lo..lo + len] == [0, 0, 255, 255]
    ensures (lo, len) == (0, 3) ==> EDGE[lo..lo + len] == [0, 0, 255]
    ensures (lo, len) == (1, 3) ==> EDGE[lo..lo + len] == [0, 255, 255]
  {
  }

  const ROW := Plane(4, 1, 1, EDGE)
  const COLUMN := Plane(1, 4, 1, EDGE)

  lemma RowAt(f: Filter, xx: nat)
    requires xx < 2
    ensures HorizontalAt(ROW, Halved(f), 0, xx, 0) == HalvedEdge(f)[xx]
  {
    var lo, len := Halved(f).Lo(xx), Halved(f).Len(xx);
    WindowsFit(Halved(f), xx);
    EdgeUnder(f, xx);
    assert RowSamples(ROW, 0, lo, len, 0) == EDGE[lo..lo + len];
    HalvedBlend(f, xx, EDGE[lo..lo + len]);
  }

  lemma ColumnAt(f: Filter, yy: nat)
    requires yy < 2 && Covers(COLUMN, Halved(f), 0)
    ensures VerticalAt(COLUMN, Halved(f), 0, yy, 0, 0) == HalvedEdge(f)[yy]
  {
    var lo, len := Halved(f).Lo(yy), Halved(f).Len(yy);
    WindowsFit(Halved(f), yy);
    EdgeUnder(f, yy);
    assert ColumnSamples(COLUMN, lo, len, 0, 0) == EDGE[lo..lo + len];
    HalvedBlend(f, yy, EDGE[lo..lo + len]);
  }

  lemma TwoBytes(p: Plane, bytes: seq<int>)
    requires |p.data| == 2 == |bytes| && p.data[0] == bytes[0] && p.data[1] == bytes[1]
    ensures p.data == bytes
  {
  }

  lemma RowOfTwo(src: Plane, h: Axis, v: Axis, bytes: seq<int>)
    requires Fits(src, h, v) && src.h == src.c == 1 && h.outSize == 2 && Needed(h) && !Needed(v)
    requires |bytes| == 2 && forall x: nat :: x < 2 ==> HorizontalAt(src, h, 0, x, 0) == bytes[x]
    ensures TwoPass(src, h, v) == Plane(2, 1, 1, bytes)
  {
    var p := Horizontal(src, h, 0, 1);
    assert At(p, 0, 0, 0) == HorizontalAt(src, h, 0, 0, 0);
    assert At(p, 0, 1, 0) == HorizontalAt(src, h, 0, 1, 0);
    TwoBytes(p, bytes);
  }

  lemma ColumnOfTwo(src: Plane, h: Axis, v: Axis, bytes: seq<int>)
    requires Fits(src, h, v) && src.w == src.c == 1 && v.outSize == 2 && !Needed(h) && Needed(v)
    requires |bytes| == 2 && Covers(src, v, 0)
    requires forall y: nat :: y < 2 ==> VerticalAt(src, v, 0, y, 0, 0) == bytes[y]
    ensures TwoPass(src, h, v) == Plane(1, 2, 1, bytes)
  {
    var p := Vertical(src, v, 0);
    assert At(p, 0, 0, 0) == VerticalAt(src, v, 0, 0, 0, 0);
    assert At(p, 1, 0, 0) == VerticalAt(src, v, 0, 1, 0, 0);
    TwoBytes(p, bytes);
  }

  /** The edge as a row, halved by the horizontal pass alone. */
  lemma EdgeAcross(f: Filter)
    ensures TwoPass(ROW, Halved(f), WHOLE) == Plane(2, 1, 1, HalvedEdge(f))
  {
    forall x: nat | x < 2 ensures HorizontalAt(ROW, Halved(f), 0, x, 0) == HalvedEdge(f)[x] {
      RowAt(f, x);
    }
    RowOfTwo(ROW, Halved(f), WHOLE, HalvedEdge(f));
  }

  /** The edge as a column, halved by the vertical pass alone. */
  lemma EdgeDown(f: Filter)
    ensures TwoPass(COLUMN, WHOLE, Halved(f)) == Plane(1, 2, 1, HalvedEdge(f))
  {
    AllRowsCovered(Halved(f));
    forall y: nat | y < 2 ensures VerticalAt(COLUMN, Halved(f), 0, y, 0, 0) == HalvedEdge(f)[y] {
      ColumnAt(f, y);
    }
    ColumnOfTwo(COLUMN, WHOLE, Halved(f), HalvedEdge(f));
  }
}
