/** The 22-bit fixed-point accumulation of crates/formula-texo/src/resample.rs. */
module FixedPoint {
  import opened Kernels
  import opened KernelSums

  const HALF := 0x20_0000
  const WORD := 0x1_0000_0000
  const SIGN := 0x8000_0000

  /** Two's complement wrap-around of 32 bits. */
  function Wrap(v: int): (r: int)
    ensures -SIGN <= r < SIGN
  {
    (v + SIGN) % WORD - SIGN
  }

  /** The accumulator after the samples `px`, which `k` weighs. */
  function Accumulate(k: seq<int>, px: seq<int>): int
    requires |px| <= |k|
    decreases |px|
  {
    if px == [] then HALF
    else
      var n := |px| - 1;
      Wrap(Accumulate(k, px[..n]) + Wrap(px[n] * k[n]))
  }

  function Clip8(v: int): int {
    var q := v / ONE;
    if q < 0 then 0 else if q > 255 then 255 else q
  }

  predicate Bytes(px: seq<int>) {
    forall x :: 0 <= x < |px| ==> 0 <= px[x] <= 255
  }

  // ----- what the wrapping accumulator computes -----

  function Dot(k: seq<int>, px: seq<int>): int
    requires |px| <= |k|
    decreases |px|
  {
    if px == [] then 0
    else
      var n := |px| - 1;
      Dot(k, px[..n]) + px[n] * k[n]
  }

  lemma WrapAdds(a: int, b: int)
    ensures Wrap(Wrap(a) + Wrap(b)) == Wrap(a + b)
  {
    var qa, qb := (a + SIGN) / WORD, (b + SIGN) / WORD;
    assert Wrap(a) == a - qa * WORD && Wrap(b) == b - qb * WORD;
    WrapShifts(a + b, -(qa + qb));
  }

  lemma WrapShifts(v: int, q: int)
    ensures Wrap(v + q * WORD) == Wrap(v)
  {
    var r, d := (v + SIGN) % WORD, (v + SIGN) / WORD;
    assert v + SIGN == d * WORD + r;
    assert v + q * WORD + SIGN == (d + q) * WORD + r;
    DivMod(v + q * WORD + SIGN, d + q, r);
  }

  lemma DivMod(v: int, d: int, r: int)
    requires v == d * WORD + r && 0 <= r < WORD
    ensures v % WORD == r
  {
  }

  lemma WrapFits(v: int)
    requires -SIGN <= v < SIGN
    ensures Wrap(v) == v
  {
  }

  /** Wrapping at every step is wrapping once at the end. */
  lemma {:induction false} AccumulateWraps(k: seq<int>, px: seq<int>)
    requires |px| <= |k|
    ensures Accumulate(k, px) == Wrap(HALF + Dot(k, px))
    decreases |px|
  {
    if px != [] {
      var n := |px| - 1;
      AccumulateWraps(k, px[..n]);
      WrapAdds(HALF + Dot(k, px[..n]), px[n] * k[n]);
    }
  }

  lemma AccumulateExact(k: seq<int>, px: seq<int>)
    requires |px| <= |k| && -SIGN <= HALF + Dot(k, px) < SIGN
    ensures Accumulate(k, px) == HALF + Dot(k, px)
  {
    AccumulateWraps(k, px);
    WrapFits(HALF + Dot(k, px));
  }

  /** While the sum does not wrap, the sample is the byte nearest to the weighted sum, the
   *  upper one of two, and the first or the last byte beyond them. */
  lemma NearestByte(k: seq<int>, px: seq<int>)
    requires |px| <= |k| && -SIGN <= HALF + Dot(k, px) < SIGN
    ensures var sum, v := Dot(k, px), Clip8(Accumulate(k, px));
            && 0 <= v <= 255
            && (v > 0 ==> sum * 2 >= (2 * v - 1) * 4194304)
            && (v < 255 ==> sum * 2 < (2 * v + 1) * 4194304)
  {
    AccumulateExact(k, px);
  }

  // ----- flat images -----

  function IntSum(k: seq<int>): int {
    if k == [] then 0 else IntSum(k[..|k| - 1]) + k[|k| - 1]
  }

  lemma {:induction false} DotFlat(k: seq<int>, px: seq<int>, v: int)
    requires |px| <= |k| && forall x :: 0 <= x < |px| ==> px[x] == v
    ensures Dot(k, px) == v * IntSum(k[..|px|])
    decreases |px|
  {
    if px != [] {
      var n := |px| - 1;
      DotFlat(k, px[..n], v);
      assert k[..n + 1][..n] == k[..n];
      assert v * (IntSum(k[..n]) + k[n]) == v * IntSum(k[..n]) + v * k[n];
    }
  }

  /** A part of the total, in fixed point but not rounded. */
  function Share(part: real, total: real): real
    requires total > 0.0
  {
    part / total * ONE as real
  }

  lemma ShareAdds(w: real, total: real, sum: real)
    requires total > 0.0
    ensures Share(sum + w, total) == Share(sum, total) + Normal(w, total) * ONE as real
  {
    assert (sum + w) / total == sum / total + w / total;
  }

  lemma ShareAll(total: real)
    requires total > 0.0
    ensures Share(total, total) == ONE as real
  {
    assert total / total == 1.0;
  }

  lemma {:induction false} FixedPrefix(s: seq<real>, n: nat)
    requires n <= |s| && Sum(s) > 0.0
    ensures -0.5 * n as real <= IntSum(FixedWeights(s)[..n]) as real - Share(Sum(s[..n]), Sum(s)) <= 0.5 * n as real
  {
    var k := FixedWeights(s);
    if n > 0 {
      FixedPrefix(s, n - 1);
      assert k[..n][..n - 1] == k[..n - 1];
      assert s[..n][..n - 1] == s[..n - 1];
      ShareAdds(s[n - 1], Sum(s), Sum(s[..n - 1]));
    }
  }

  lemma FixedSum(s: seq<real>)
    requires Sum(s) > 0.0
    ensures |s| + 2 * (IntSum(FixedWeights(s)) - ONE) >= 0
    ensures 2 * (IntSum(FixedWeights(s)) - ONE) <= |s|
  {
    FixedPrefix(s, |s|);
    assert s[..|s|] == s && FixedWeights(s)[..|s|] == FixedWeights(s);
    ShareAll(Sum(s));
  }

  lemma KernelPrefix(a: Axis, xx: nat)
    requires a.Valid() && xx < a.outSize
    ensures a.Len(xx) < a.KSize() && a.Kernel(xx)[..a.Len(xx)] == FixedWeights(a.Samples(xx))
  {
    WindowsFit(a, xx);
  }

  /** The weights of a window add up to one, within half a unit a weight. */
  lemma KernelSumsToOne(a: Axis, xx: nat)
    requires a.Valid() && xx < a.outSize
    ensures a.Len(xx) <= a.KSize()
    ensures a.Len(xx) + 2 * (IntSum(a.Kernel(xx)[..a.Len(xx)]) - ONE) >= 0
    ensures 2 * (IntSum(a.Kernel(xx)[..a.Len(xx)]) - ONE) <= a.Len(xx)
  {
    KernelPrefix(a, xx);
    TotalPositive(a, xx);
    FixedSum(a.Samples(xx));
  }

  /** A flat window keeps its value. */
  lemma FlatSample(a: Axis, xx: nat, px: seq<int>, v: int)
    requires a.Valid() && xx < a.outSize && |px| == a.Len(xx) <= a.KSize()
    requires 255 * a.Len(xx) < ONE
    requires 0 <= v <= 255 && forall x :: 0 <= x < |px| ==> px[x] == v
    ensures Clip8(Accumulate(a.Kernel(xx), px)) == v
  {
    KernelSumsToOne(a, xx);
    FlatDot(a.Kernel(xx), px, v);
  }

  lemma FlatDot(k: seq<int>, px: seq<int>, v: int)
    requires |px| <= |k| && 255 * |px| < ONE
    requires |px| + 2 * (IntSum(k[..|px|]) - ONE) >= 0
    requires 2 * (IntSum(k[..|px|]) - ONE) <= |px|
    requires 0 <= v <= 255 && forall x :: 0 <= x < |px| ==> px[x] == v
    ensures Clip8(Accumulate(k, px)) == v
  {
    FlatDotValue(k, px, v);
    AccumulateExact(k, px);
    FlatClips(Accumulate(k, px), v);
  }

  lemma FlatDotValue(k: seq<int>, px: seq<int>, v: int)
    requires |px| <= |k| && 255 * |px| < ONE
    requires |px| + 2 * (IntSum(k[..|px|]) - ONE) >= 0
    requires 2 * (IntSum(k[..|px|]) - ONE) <= |px|
    requires 0 <= v <= 255 && forall x :: 0 <= x < |px| ==> px[x] == v
    ensures v * ONE <= HALF + Dot(k, px) < (v + 1) * ONE
  {
    DotFlat(k, px, v);
    FlatTotal(v, IntSum(k[..|px|]), |px|, Dot(k, px));
  }

  lemma FlatClips(t: int, v: int)
    requires 0 <= v <= 255 && v * ONE <= t < (v + 1) * ONE
    ensures Clip8(t) == v
  {
    Quotient(t, v);
  }

  lemma FlatTotal(v: int, total: int, len: nat, dot: int)
    requires 0 <= v <= 255 && 255 * len < ONE && dot == v * total
    requires len + 2 * (total - ONE) >= 0 && 2 * (total - ONE) <= len
    ensures v * ONE <= HALF + dot < (v + 1) * ONE
  {
    FlatBounds(v, total - ONE, len);
    assert dot == v * ONE + v * (total - ONE);
  }

  lemma FlatBounds(v: int, off: int, len: nat)
    requires 0 <= v <= 255 && len + 2 * off >= 0 && 2 * off <= len && 255 * len < ONE
    ensures -HALF < v * off < HALF
  {
    Product(v, len - 2 * off);
    Product(v, len + 2 * off);
    Product(255 - v, len);
    assert v * (len - 2 * off) == v * len - 2 * (v * off);
    assert v * (len + 2 * off) == v * len + 2 * (v * off);
    assert (255 - v) * len == 255 * len - v * len;
  }

  lemma Product(x: int, y: int)
    requires x >= 0 && y >= 0
    ensures x * y >= 0
  {
  }

  lemma Quotient(t: int, v: int)
    requires v * ONE <= t < (v + 1) * ONE
    ensures t / ONE == v
  {
  }

  // ----- the accumulator of the bilinear filter never wraps -----

  lemma RoundAwayDoubles(v: real)
    requires v >= 0.0
    ensures 0 <= RoundAway(v) && RoundAway(v) as real <= 2.0 * v
  {
  }

  lemma BilinearWeight(s: seq<real>, x: nat)
    requires x < |s| && s[x] >= 0.0 && Sum(s) > 0.0
    ensures 0 <= FixedWeights(s)[x]
    ensures FixedWeights(s)[x] as real <= 2.0 * (Normal(s[x], Sum(s)) * ONE as real)
  {
    RatioPositive(s[x], Sum(s));
    RoundAwayDoubles(Normal(s[x], Sum(s)) * ONE as real);
  }

  lemma RatioPositive(w: real, total: real)
    requires w >= 0.0 && total > 0.0
    ensures Normal(w, total) >= 0.0
  {
    Growing(0.0, w / total, total);
    assert w / total * total == w;
  }

  lemma {:induction false} BilinearPrefix(s: seq<real>, n: nat)
    requires n <= |s| && Sum(s) > 0.0
    requires forall x :: 0 <= x < |s| ==> s[x] >= 0.0
    ensures 0 <= IntSum(FixedWeights(s)[..n])
    ensures IntSum(FixedWeights(s)[..n]) as real <= 2.0 * Share(Sum(s[..n]), Sum(s))
  {
    var k := FixedWeights(s);
    if n > 0 {
      BilinearPrefix(s, n - 1);
      assert k[..n][..n - 1] == k[..n - 1];
      assert s[..n][..n - 1] == s[..n - 1];
      BilinearStep(IntSum(k[..n - 1]), Sum(s[..n - 1]), s[n - 1], Sum(s));
    } else {
      ShareNone(Sum(s));
    }
  }

  lemma ShareNone(total: real)
    requires total > 0.0
    ensures Share(0.0, total) == 0.0
  {
    assert 0.0 / total == 0.0;
  }

  lemma BilinearStep(i: int, sum: real, w: real, total: real)
    requires total > 0.0 && w >= 0.0 && 0 <= i && i as real <= 2.0 * Share(sum, total)
    ensures 0 <= RoundAway(Normal(w, total) * ONE as real)
    ensures (i + RoundAway(Normal(w, total) * ONE as real)) as real <= 2.0 * Share(sum + w, total)
  {
    RatioPositive(w, total);
    var v := Normal(w, total) * ONE as real;
    RoundAwayDoubles(v);
    ShareAdds(w, total, sum);
    Doubled(i, RoundAway(v), Share(sum, total), v);
  }

  lemma Doubled(i: int, j: int, a: real, b: real)
    requires i as real <= 2.0 * a && j as real <= 2.0 * b
    ensures (i + j) as real <= 2.0 * (a + b)
  {
  }

  lemma {:induction false} DotBounds(k: seq<int>, px: seq<int>)
    requires |px| <= |k| && Bytes(px) && forall x :: 0 <= x < |px| ==> k[x] >= 0
    ensures 0 <= Dot(k, px) <= 255 * IntSum(k[..|px|])
    decreases |px|
  {
    if px != [] {
      var n := |px| - 1;
      DotBounds(k, px[..n]);
      assert k[..n + 1][..n] == k[..n];
      assert 0 <= px[n] * k[n] <= 255 * k[n];
    }
  }

  lemma {:induction false} SumGrows(s: seq<real>, n: nat)
    requires n <= |s| && forall x :: 0 <= x < |s| ==> s[x] >= 0.0
    ensures Sum(s[..n]) <= Sum(s)
    decreases |s| - n
  {
    if n < |s| {
      SumGrows(s, n + 1);
      assert s[..n + 1][..n] == s[..n];
    } else {
      assert s[..n] == s;
    }
  }

  /** Whatever the samples, each step of the bilinear accumulation is exact. */
  lemma BilinearNeverWraps(a: Axis, xx: nat, px: seq<int>)
    requires a.Valid() && xx < a.outSize && a.filter == Bilinear
    requires Bytes(px) && |px| <= a.Len(xx) <= a.KSize()
    ensures 0 <= HALF + Dot(a.Kernel(xx), px) < SIGN
    ensures Accumulate(a.Kernel(xx), px) == HALF + Dot(a.Kernel(xx), px)
  {
    var s, k := a.Samples(xx), a.Kernel(xx);
    TotalPositive(a, xx);
    SamplesWeights(a, xx);
    var w := FixedWeights(s);
    forall x | 0 <= x < |s| ensures s[x] >= 0.0 && k[x] == w[x] && w[x] >= 0 {
      assert Bounded(s[x], 0.0, x as real + a.Lo(xx) as real - a.Center(xx) + 0.5, a.FilterScale());
      assert k[..|s|][x] == w[x];
      BilinearWeight(s, x);
    }
    assert k[..|px|] == w[..|px|];
    BilinearPrefix(s, |px|);
    SumGrows(s, |px|);
    ShareBelowOne(Sum(s[..|px|]), Sum(s));
    DotBounds(k, px);
    AccumulateExact(k, px);
  }

  lemma ShareBelowOne(part: real, total: real)
    requires part <= total && total > 0.0
    ensures Share(part, total) <= ONE as real
  {
    Growing(part / total, 1.0, total);
    assert part / total * total == part;
  }

  // ----- the casts of the weights are exact -----

  lemma WeightFits(a: Axis, xx: nat, x: nat)
    requires a.Valid() && xx < a.outSize && x < a.KSize()
    ensures -0x400_0000 <= a.Kernel(xx)[x] <= 0x400_0000
  {
    var s, k := a.Samples(xx), a.Kernel(xx);
    if x < |s| {
      TotalPositive(a, xx);
      SamplesWeights(a, xx);
      assert Bounded(s[x], Least(a.filter), x as real + a.Lo(xx) as real - a.Center(xx) + 0.5, a.FilterScale());
      RatioBound(s[x], Sum(s));
      assert k[..|s|][x] == FixedWeights(s)[x];
    }
  }

  lemma RatioBound(w: real, total: real)
    requires -1.0 <= w <= 1.0 && total >= 0.075
    ensures -15.0 <= w / total <= 15.0
  {
    var q := w / total;
    assert q * total == w;
    Growing(q, 15.0, total);
    Growing(-15.0, q, total);
  }
}
