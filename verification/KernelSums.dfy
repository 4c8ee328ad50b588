/** The weights of one window: their sum is never zero, and in fixed point they
 *  add up to one within half a unit a weight. */
module KernelSums {
  import opened Kernels

  // ----- the two filter curves -----

  lemma NonNegative(x: real, y: real)
    requires x >= 0.0 && y >= 0.0
    ensures x * y >= 0.0
  {
  }

  /** Inside the unit radius no weight is negative. */
  lemma InnerCubic(x: real)
    requires 0.0 <= x < 1.0
    ensures 0.0 <= (1.5 * x - 2.5) * x * x + 1.0 <= 1.0
    ensures x <= 0.5 ==> (1.5 * x - 2.5) * x * x + 1.0 >= 0.375
  {
    var q := x * x;
    var c := q * x;
    NonNegative(x, x);
    NonNegative(q, x);
    NonNegative(1.0 - x, x);
    assert (1.0 - x) * x == x - q;
    NonNegative(1.0 - x, q);
    assert (1.0 - x) * q == q - c;
    assert (1.5 * x - 2.5) * x == 1.5 * q - 2.5 * x;
    assert (1.5 * q - 2.5 * x) * x == 1.5 * c - 2.5 * q;
    var w := 1.0 + x - 1.5 * q;
    NonNegative(1.0 - x, w);
    assert (1.0 - x) * w == w - x * w;
    assert x * w == x + q - 1.5 * c;
    assert 1.5 * c - 2.5 * q <= 0.0;
    if x <= 0.5 {
      NonNegative(0.5 - x, x);
      assert (0.5 - x) * x == 0.5 * x - q;
    }
  }

  /** The outer lobe is never above zero and never below -2/27; the bound used here
   *  is slightly weaker. */
  lemma OuterCubic(x: real)
    requires 1.0 <= x < 2.0
    ensures -0.075 <= (((x - 5.0) * x + 8.0) * x - 4.0) * -0.5 <= 0.0
  {
    var t := x - 1.0;
    var u := 1.0 - t;
    assert u * u == 1.0 - 2.0 * t + t * t;
    NonNegative(u, u);
    NonNegative(t, u * u);
    LobeLeast(t);
    assert (x - 5.0) * x == (t - 4.0) * (t + 1.0) == t * t - 3.0 * t - 4.0;
    assert (t * t - 3.0 * t + 4.0) * (t + 1.0) == t * t * t - 2.0 * (t * t) + t + 4.0;
    assert t * (u * u) == t - 2.0 * (t * t) + t * t * t;
  }

  lemma LobeLeast(t: real)
    requires 0.0 <= t < 1.0
    ensures t * ((1.0 - t) * (1.0 - t)) <= 0.15
  {
    var d := t - 1.0 / 3.0;
    var q := t * t;
    assert d * d == q - 2.0 / 3.0 * t + 1.0 / 9.0;
    NonNegative(if d < 0.0 then -d else d, if d < 0.0 then -d else d);
    NonNegative(d * d, 4.0 / 3.0 - t);
    assert (d * d) * t == q * t - 2.0 / 3.0 * q + 1.0 / 9.0 * t;
    assert (d * d) * (4.0 / 3.0 - t) == 4.0 / 3.0 * (d * d) - (d * d) * t;
    assert (1.0 - t) * (1.0 - t) == 1.0 - 2.0 * t + q;
    assert t * (1.0 - 2.0 * t + q) == t - 2.0 * q + q * t;
  }

  lemma UnitsUpTo(d: real, k: real, fs: real, unit: real)
    requires fs >= 1.0 && unit * fs == 1.0
    ensures d <= k * fs ==> d * unit <= k
    ensures d < k * fs ==> d * unit < k
  {
    assert d * unit * fs == d * (unit * fs) == d;
    Growing(d * unit, k, fs);
  }

  /** `u` is the distance `d` in filter units of `fs` pixels. */
  ghost predicate InUnits(d: real, u: real, fs: real) {
    && (-0.5 * fs <= d <= 0.5 * fs ==> -0.5 <= u <= 0.5)
    && (-fs < d < fs ==> -1.0 < u && u < 1.0)
  }

  lemma FilterUnits(d: real, fs: real, unit: real)
    requires fs >= 1.0 && unit * fs == 1.0
    ensures InUnits(d, Units(d, unit), fs)
  {
    var e := -d;
    assert e * unit == -(d * unit);
    UnitsUpTo(d, 0.5, fs, unit);
    UnitsUpTo(e, 0.5, fs, unit);
    UnitsUpTo(d, 1.0, fs, unit);
    UnitsUpTo(e, 1.0, fs, unit);
    var u := d * unit;
    assert -fs < d ==> 0.0 < 1.0 + u;
    assert -fs < d ==> -1.0 < u;
  }

  lemma Rescaled(w: real, least: real, d: real, u: real, fs: real)
    requires InUnits(d, u, fs) && Bounded(w, least, u, 1.0)
    ensures Bounded(w, least, d, fs)
  {
  }

  lemma Growing(x: real, y: real, k: real)
    requires k > 0.0
    ensures x <= y <==> x * k <= y * k
    ensures x < y <==> x * k < y * k
  {
    if x < y {
      assert (y - x) * k > 0.0;
      assert (y - x) * k == y * k - x * k;
    } else {
      NonNegative(x - y, k);
      assert (x - y) * k == x * k - y * k;
      if x > y { assert (x - y) * k > 0.0; }
    }
  }

  /** What is known of a weight `w` at distance `d` from the center. */
  ghost predicate Bounded(w: real, least: real, d: real, fs: real) {
    && least <= w <= 1.0
    && (-fs < d < fs ==> w >= 0.0)
    && (-0.5 * fs <= d <= 0.5 * fs ==> w >= 0.375)
  }

  /** What is known of the weights of a window that starts at pixel `lo`. */
  ghost predicate Weights(s: seq<real>, least: real, lo: nat, c: real, fs: real) {
    forall x :: 0 <= x < |s| ==> Bounded(s[x], least, x as real + lo as real - c + 0.5, fs)
  }

  function Least(f: Filter): real {
    if f == Bilinear then 0.0 else -0.075
  }

  lemma EvalBounds(f: Filter, x: real)
    ensures Bounded(Eval(f, x), Least(f), x, 1.0)
  {
    var y := if x < 0.0 then -x else x;
    if f == Bicubic {
      if y < 1.0 {
        InnerCubic(y);
      } else if y < 2.0 {
        OuterCubic(y);
      }
    }
  }

  lemma ShapeBounded(f: Filter)
    ensures forall x :: Bounded(Shape(f)(x), Least(f), x, 1.0)
  {
    forall x ensures Bounded(Shape(f)(x), Least(f), x, 1.0) {
      EvalBounds(f, x);
    }
  }

  lemma CurveWeights(tap: real -> real, least: real, c: real, fs: real, lo: nat, len: nat)
    requires forall d :: Bounded(tap(d), least, d, fs)
    ensures Weights(Curve(tap, c, lo, len), least, lo, c, fs)
  {
  }

  lemma TapsBounded(shape: real -> real, least: real, fs: real, unit: real)
    requires fs >= 1.0 && unit * fs == 1.0
    requires forall x :: Bounded(shape(x), least, x, 1.0)
    ensures forall d :: Bounded(Tap(shape, unit)(d), least, d, fs)
  {
    forall d ensures Bounded(Tap(shape, unit)(d), least, d, fs) {
      FilterUnits(d, fs, unit);
      Rescaled(Tap(shape, unit)(d), least, d, Units(d, unit), fs);
    }
  }

  lemma SamplesWeights(a: Axis, xx: nat)
    requires a.Valid()
    ensures Weights(a.Samples(xx), Least(a.filter), a.Lo(xx), a.Center(xx), a.FilterScale())
  {
    var fs := a.FilterScale();
    var unit := 1.0 / fs;
    assert unit * fs == 1.0;
    ShapeBounded(a.filter);
    TapsBounded(Shape(a.filter), Least(a.filter), fs, unit);
    CurveWeights(Tap(Shape(a.filter), unit), Least(a.filter), a.Center(xx), fs, a.Lo(xx), a.Len(xx));
  }

  // ----- the sum of a window is positive -----

  lemma {:induction false} RangeAtLeast(s: seq<real>, lo: nat, hi: nat, v: real)
    requires lo <= hi <= |s|
    requires forall x :: lo <= x < hi ==> s[x] >= v
    ensures Sum(s[..hi]) - Sum(s[..lo]) >= v * (hi - lo) as real
    decreases hi
  {
    if lo < hi {
      RangeAtLeast(s, lo, hi - 1, v);
      assert s[..hi][..hi - 1] == s[..hi - 1];
      assert v * (hi - lo) as real == v * (hi - 1 - lo) as real + v;
    }
  }

  /** The pixels around the center: `count` of them, from the window's `p`-th on, lie
   *  within half a filter unit. */
  ghost predicate Middle(lo: nat, len: nat, c: real, fs: real, p: nat, count: nat) {
    && count == fs.Floor && p + count <= len
    && c - 0.5 * fs - 0.5 <= (p + lo) as real
    && (p + lo + count) as real <= c + 0.5 * fs + 0.5
  }

  lemma MiddleExists(a: Axis, xx: nat) returns (p: nat, count: nat)
    requires a.Valid() && xx < a.outSize
    ensures Middle(a.Lo(xx), a.Len(xx), a.Center(xx), a.FilterScale(), p, count)
  {
    var c, fs := a.Center(xx), a.FilterScale();
    CenterInside(a, xx);
    WindowsFit(a, xx);
    count := fs.Floor;
    var first := c.Floor;
    if a.Scale() >= 1.0 {
      CeilUp(c - 0.5 * fs - 0.5);
      first := Ceil(c - 0.5 * fs - 0.5);
    }
    assert c - 0.5 * fs - 0.5 <= first as real;
    assert first as real + count as real <= c + 0.5 * fs + 0.5;
    p := first - a.Lo(xx);
  }

  lemma MiddleSum(s: seq<real>, least: real, lo: nat, c: real, fs: real, p: nat, count: nat)
    requires fs >= 1.0 && Weights(s, least, lo, c, fs) && Middle(lo, |s|, c, fs, p, count)
    ensures Sum(s[..p + count]) - Sum(s[..p]) >= 0.375 * count as real
  {
    forall x | p <= x < p + count ensures s[x] >= 0.375 {
      assert Bounded(s[x], least, x as real + lo as real - c + 0.5, fs);
    }
    RangeAtLeast(s, p, p + count, 0.375);
  }

  lemma LeftInner(s: seq<real>, lo: nat, c: real, fs: real, p: nat, count: nat, left: nat)
    requires fs >= 1.0 && Weights(s, -0.075, lo, c, fs) && Middle(lo, |s|, c, fs, p, count)
    requires left <= p && (lo + left) as real + 0.5 - c > -fs
    ensures forall x :: 0 <= x < p ==> s[x] >= if x < left then -0.075 else 0.0
  {
    forall x | 0 <= x < p ensures s[x] >= if x < left then -0.075 else 0.0 {
      var d := x as real + lo as real - c + 0.5;
      assert Bounded(s[x], -0.075, d, fs);
      assert d < fs;
      assert left <= x ==> d >= (lo + left) as real + 0.5 - c;
    }
  }

  lemma HeadSum(s: seq<real>, p: nat, left: nat, lobe: nat)
    requires left <= p <= |s| && left <= lobe
    requires forall x :: 0 <= x < p ==> s[x] >= if x < left then -0.075 else 0.0
    ensures Sum(s[..p]) >= -0.075 * lobe as real
  {
    assert s[..0] == [];
    RangeAtLeast(s, 0, left, -0.075);
    RangeAtLeast(s, left, p, 0.0);
  }

  /** The negative lobe before the middle has at most `count + 1` pixels. */
  lemma LeftLobe(s: seq<real>, lo: nat, c: real, fs: real, p: nat, count: nat)
    requires fs >= 1.0 && Weights(s, -0.075, lo, c, fs) && Middle(lo, |s|, c, fs, p, count)
    requires lo == WindowLo(c, 2.0 * fs)
    ensures Sum(s[..p]) >= -0.075 * (count + 1) as real
  {
    var left := LeftEnd(lo, c, fs, p + lo) - lo;
    LeftInner(s, lo, c, fs, p, count, left);
    HeadSum(s, p, left, count + 1);
  }

  /** The first pixel less than `fs` before the center, from `lo` on. */
  function LeftEnd(lo: nat, c: real, fs: real, middle: nat): (first: nat)
    requires fs >= 1.0 && lo == WindowLo(c, 2.0 * fs)
    requires lo <= middle && c - 0.5 * fs - 0.5 <= middle as real
    ensures lo <= first <= middle && first - lo <= fs.Floor + 1
    ensures first as real + 0.5 - c > -fs
  {
    var first := (c - fs - 0.5).Floor + 1;
    if first < lo then lo else first
  }

  lemma RightStart(end: nat, middle: nat, c: real, fs: real) returns (first: nat)
    requires fs >= 1.0 && middle as real <= c + 0.5 * fs + 0.5
    requires middle <= end && end as real <= c + 2.0 * fs + 0.5
    ensures middle <= first <= end && end - first <= fs.Floor + 1
    ensures first as real - 0.5 - c < fs
  {
    CeilUp(c + fs - 0.5);
    first := Ceil(c + fs - 0.5);
    if first > end { first := end; }
  }

  lemma RightInner(s: seq<real>, lo: nat, c: real, fs: real, p: nat, count: nat, right: nat)
    requires fs >= 1.0 && Weights(s, -0.075, lo, c, fs) && Middle(lo, |s|, c, fs, p, count)
    requires right <= |s| && (lo + right) as real - 0.5 - c < fs
    ensures forall x :: p <= x < |s| ==> s[x] >= if x < right then 0.0 else -0.075
  {
    forall x | p <= x < |s| ensures s[x] >= if x < right then 0.0 else -0.075 {
      var d := x as real + lo as real - c + 0.5;
      assert Bounded(s[x], -0.075, d, fs);
      assert d > -fs;
      assert x < right ==> d <= (lo + right) as real - 0.5 - c;
    }
  }

  /** So has the one after it. */
  lemma RightLobe(s: seq<real>, lo: nat, c: real, fs: real, p: nat, count: nat)
    requires fs >= 1.0 && Weights(s, -0.075, lo, c, fs) && Middle(lo, |s|, c, fs, p, count)
    requires lo as real + |s| as real <= c + 2.0 * fs + 0.5
    ensures Sum(s) - Sum(s[..p + count]) >= -0.075 * (count + 1) as real
  {
    var first := RightStart(lo + |s|, lo + p + count, c, fs);
    var right := first - lo;
    RightInner(s, lo, c, fs, p, count, right);
    TailSum(s, p + count, right, count + 1);
  }

  lemma TailSum(s: seq<real>, from: nat, right: nat, lobe: nat)
    requires from <= right <= |s| <= right + lobe
    requires forall x :: from <= x < |s| ==> s[x] >= if x < right then 0.0 else -0.075
    ensures Sum(s) - Sum(s[..from]) >= -0.075 * lobe as real
  {
    assert s[..|s|] == s;
    RangeAtLeast(s, from, right, 0.0);
    RangeAtLeast(s, right, |s|, -0.075);
  }

  lemma BilinearSum(s: seq<real>, lo: nat, c: real, fs: real, p: nat, count: nat)
    requires fs >= 1.0 && Weights(s, 0.0, lo, c, fs) && Middle(lo, |s|, c, fs, p, count)
    ensures Sum(s) >= 0.375
  {
    MiddleSum(s, 0.0, lo, c, fs, p, count);
    forall x | 0 <= x < |s| ensures s[x] >= 0.0 {
      assert Bounded(s[x], 0.0, x as real + lo as real - c + 0.5, fs);
    }
    assert s[..|s|] == s && s[..0] == [];
    RangeAtLeast(s, 0, p, 0.0);
    RangeAtLeast(s, p + count, |s|, 0.0);
  }

  lemma LobesAreSmaller(count: nat, before: real, within: real, total: real)
    requires count >= 1 && within - before >= 0.375 * count as real
    requires before >= -0.075 * (count + 1) as real && total - within >= -0.075 * (count + 1) as real
    ensures total >= 0.075
  {
  }

  lemma BicubicSum(s: seq<real>, lo: nat, c: real, fs: real, p: nat, count: nat)
    requires fs >= 1.0 && Weights(s, -0.075, lo, c, fs) && Middle(lo, |s|, c, fs, p, count)
    requires lo == WindowLo(c, 2.0 * fs) && lo as real + |s| as real <= c + 2.0 * fs + 0.5
    ensures Sum(s) >= 0.075
  {
    MiddleSum(s, -0.075, lo, c, fs, p, count);
    LeftLobe(s, lo, c, fs, p, count);
    RightLobe(s, lo, c, fs, p, count);
    LobesAreSmaller(count, Sum(s[..p]), Sum(s[..p + count]), Sum(s));
  }

  lemma WindowEnd(c: real, reach: real, inSize: nat)
    requires 0.0 <= c < inSize as real && reach >= 1.0
    ensures WindowLo(c, reach) as real + WindowLen(c, reach, inSize) as real <= c + reach + 0.5
  {
    WindowInside(c, reach, inSize);
  }

  /** A window from `lo` on with its weights, and the pixels of its middle. */
  ghost predicate Windowed(f: Filter, s: seq<real>, lo: nat, c: real, fs: real, reach: real, p: nat, count: nat) {
    && fs >= 1.0 && reach == Support(f) * fs && Weights(s, Least(f), lo, c, fs)
    && Middle(lo, |s|, c, fs, p, count)
    && lo == WindowLo(c, reach) && lo as real + |s| as real <= c + reach + 0.5
  }

  lemma WindowSum(f: Filter, s: seq<real>, lo: nat, c: real, fs: real, reach: real, p: nat, count: nat)
    requires Windowed(f, s, lo, c, fs, reach, p, count)
    ensures Sum(s) >= 0.075
  {
    if f == Bilinear {
      BilinearSum(s, lo, c, fs, p, count);
    } else {
      BicubicSum(s, lo, c, fs, p, count);
    }
  }

  lemma WindowExists(a: Axis, xx: nat) returns (p: nat, count: nat)
    requires a.Valid() && xx < a.outSize
    ensures Windowed(a.filter, a.Samples(xx), a.Lo(xx), a.Center(xx), a.FilterScale(), a.Reach(), p, count)
  {
    p, count := MiddleExists(a, xx);
    SamplesWeights(a, xx);
    CenterInside(a, xx);
    WindowEnd(a.Center(xx), a.Reach(), a.inSize);
  }

  /** Every window has a positive sum, for both filters. */
  lemma TotalPositive(a: Axis, xx: nat)
    requires a.Valid() && xx < a.outSize
    ensures Sum(a.Samples(xx)) >= 0.075
  {
    var p, count := WindowExists(a, xx);
    WindowSum(a.filter, a.Samples(xx), a.Lo(xx), a.Center(xx), a.FilterScale(), a.Reach(), p, count);
  }
}
