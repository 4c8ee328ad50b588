/** What the two filter curves and the windows of crates/formula-texo/src/resample.rs
 *  mean for images: constants, ramps and parabolas are reproduced, and two short lines
 *  are worked out to the byte. */
module KernelLaws {
  import opened Kernels
  import opened KernelSums

  /** Both curves are even, vanish outside their support and interpolate. */
  lemma CurveShape(f: Filter, x: real)
    ensures Eval(f, -x) == Eval(f, x)
    ensures x >= Support(f) || x <= -Support(f) ==> Eval(f, x) == 0.0
    ensures Eval(f, 0.0) == 1.0 && Eval(f, 1.0) == 0.0 && Eval(f, 2.0) == 0.0
  {
  }

  lemma OuterLeft(t: real)
    requires 0.0 <= t < 1.0
    ensures Eval(Bicubic, 1.0 + t) == -0.5 * (t * t * t) + t * t - 0.5 * t
  {
    var x := 1.0 + t;
    assert x * x == 1.0 + 2.0 * t + t * t;
    assert (x - 5.0) * x == t * t - 3.0 * t - 4.0;
    assert ((x - 5.0) * x + 8.0) * x == (t * t - 3.0 * t + 4.0) * (1.0 + t);
    assert (t * t - 3.0 * t + 4.0) * (1.0 + t) == t * t * t - 2.0 * (t * t) + t + 4.0;
  }

  lemma InnerLeft(t: real)
    requires 0.0 <= t < 1.0
    ensures Eval(Bicubic, t) == 1.5 * (t * t * t) - 2.5 * (t * t) + 1.0
  {
    assert (1.5 * t - 2.5) * t * t == 1.5 * (t * t * t) - 2.5 * (t * t);
  }

  lemma InnerRight(t: real)
    requires 0.0 <= t < 1.0
    ensures Eval(Bicubic, 1.0 - t) == -1.5 * (t * t * t) + 2.0 * (t * t) + 0.5 * t
  {
    var x := 1.0 - t;
    if t > 0.0 {
      assert (1.5 * x - 2.5) * x == (-1.5 * t - 1.0) * (1.0 - t);
      assert (-1.5 * t - 1.0) * (1.0 - t) == 1.5 * (t * t) - 0.5 * t - 1.0;
      assert (1.5 * (t * t) - 0.5 * t - 1.0) * (1.0 - t) == -1.5 * (t * t * t) + 2.0 * (t * t) + 0.5 * t - 1.0;
    }
  }

  lemma OuterRight(t: real)
    requires 0.0 <= t < 1.0
    ensures Eval(Bicubic, 2.0 - t) == 0.5 * (t * t * t) - 0.5 * (t * t)
  {
    var x := 2.0 - t;
    assert (x - 5.0) * x == t * t + t - 6.0;
    assert ((x - 5.0) * x + 8.0) * x == (t * t + t + 2.0) * (2.0 - t);
    assert (t * t + t + 2.0) * (2.0 - t) == -(t * t * t) + t * t + 4.0;
  }

  /** At every offset the four bicubic taps sum to one, and they reproduce the line and the
   *  parabola through their places -1, 0, 1 and 2. */
  lemma BicubicReproduces(t: real)
    requires 0.0 <= t < 1.0
    ensures var a, b, c, d := Eval(Bicubic, 1.0 + t), Eval(Bicubic, t), Eval(Bicubic, 1.0 - t), Eval(Bicubic, 2.0 - t);
            && a + b + c + d == 1.0
            && -1.0 * a + 0.0 * b + 1.0 * c + 2.0 * d == t
            && 1.0 * a + 0.0 * b + 1.0 * c + 4.0 * d == t * t
  {
    OuterLeft(t);
    InnerLeft(t);
    InnerRight(t);
    OuterRight(t);
  }

  /** At every offset the two bilinear taps sum to one and reproduce the line through their
   *  places 0 and 1. */
  lemma BilinearReproduces(t: real)
    requires 0.0 <= t < 1.0
    ensures Eval(Bilinear, t) + Eval(Bilinear, 1.0 - t) == 1.0
    ensures 0.0 * Eval(Bilinear, t) + 1.0 * Eval(Bilinear, 1.0 - t) == t
  {
  }

  // ----- ramps -----

  /** The weighted sum of the pixel centers of a window that begins at `lo`. */
  ghost function Moment(s: seq<real>, lo: nat): real {
    if s == [] then 0.0
    else
      var n := |s| - 1;
      Moment(s[..n], lo) + s[n] * (lo as real + n as real + 0.5)
  }

  /** Where the center of an output pixel lies in the source. */
  ghost function PlaceOf(a: Axis, xx: nat): real
    requires a.Valid()
  {
    a.in0 + (xx as real + 0.5) * ((a.in1 - a.in0) / a.outSize as real)
  }

  /** The window of an output pixel, unscaled, when it is not cut off. */
  lemma FullWindow(c: real, reach: nat, inSize: nat)
    requires reach >= 1 && c >= reach as real && c + reach as real <= inSize as real
    ensures var p := (c - 0.5).Floor;
            && WindowLo(c, reach as real) == p + 1 - reach
            && WindowLen(c, reach as real, inSize) == 2 * reach
  {
  }

  lemma UnitTap(f: Filter, d: real)
    ensures Tap(Shape(f), 1.0 / 1.0)(d) == Eval(f, d)
  {
    assert Units(d, 1.0) == d;
  }

  lemma SampleAt(a: Axis, xx: nat, x: nat)
    requires a.Valid() && a.FilterScale() == 1.0 && x < a.Len(xx)
    ensures a.Samples(xx)[x] == Eval(a.filter, x as real + a.Lo(xx) as real - a.Center(xx) + 0.5)
  {
    UnitTap(a.filter, x as real + a.Lo(xx) as real - a.Center(xx) + 0.5);
  }

  lemma TwoSum(s: seq<real>, lo: nat)
    requires |s| == 2
    ensures Sum(s) == s[0] + s[1]
    ensures Moment(s, lo) == s[0] * (lo as real + 0.5) + s[1] * (lo as real + 1.5)
  {
    assert s[..1] == [s[0]] && s[..1][..0] == [];
    assert Sum(s[..1]) == s[0];
    assert Moment(s[..1], lo) == 0.0 + s[..1][0] * (lo as real + 0.0 + 0.5);
  }

  lemma FourSum(s: seq<real>, lo: nat)
    requires |s| == 4
    ensures Sum(s) == s[0] + s[1] + s[2] + s[3]
    ensures Moment(s, lo) == s[0] * (lo as real + 0.5) + s[1] * (lo as real + 1.5)
                           + s[2] * (lo as real + 2.5) + s[3] * (lo as real + 3.5)
  {
    TwoSum(s[..2], lo);
    assert s[..3][..2] == s[..2];
    assert Sum(s[..3]) == Sum(s[..2]) + s[2];
    assert Moment(s[..3], lo) == Moment(s[..2], lo) + s[2] * (lo as real + 2.0 + 0.5);
    assert Moment(s, lo) == Moment(s[..3], lo) + s[3] * (lo as real + 3.0 + 0.5);
  }

  lemma Center4(a: real, b: real, c: real, d: real, q: real, t: real)
    requires a + b + c + d == 1.0 && -1.0 * a + 1.0 * c + 2.0 * d == t
    ensures a * (q - 1.0) + b * q + c * (q + 1.0) + d * (q + 2.0) == q + t
  {
    assert a * (q - 1.0) + b * q + c * (q + 1.0) + d * (q + 2.0)
        == (a + b + c + d) * q + (-1.0 * a + 1.0 * c + 2.0 * d);
  }

  lemma TwoTaps(s: seq<real>, lo: nat, t: real)
    requires |s| == 2 && 0.0 <= t < 1.0
    requires s[0] == Eval(Bilinear, -t) && s[1] == Eval(Bilinear, 1.0 - t)
    ensures Sum(s) == 1.0 && Moment(s, lo) == lo as real + 0.5 + t
  {
    TwoSum(s, lo);
    CurveShape(Bilinear, t);
    BilinearReproduces(t);
    Center4(0.0, s[0], s[1], 0.0, lo as real + 0.5, t);
  }

  lemma FourTaps(s: seq<real>, lo: nat, t: real)
    requires |s| == 4 && 0.0 <= t < 1.0
    requires s[0] == Eval(Bicubic, -1.0 - t) && s[1] == Eval(Bicubic, -t)
    requires s[2] == Eval(Bicubic, 1.0 - t) && s[3] == Eval(Bicubic, 2.0 - t)
    ensures Sum(s) == 1.0 && Moment(s, lo) == lo as real + 1.5 + t
  {
    FourSum(s, lo);
    FourWeights(t);
    Center4(s[0], s[1], s[2], s[3], lo as real + 1.5, t);
  }

  lemma FourWeights(t: real)
    requires 0.0 <= t < 1.0
    ensures var a, b := Eval(Bicubic, -1.0 - t), Eval(Bicubic, -t);
            var c, d := Eval(Bicubic, 1.0 - t), Eval(Bicubic, 2.0 - t);
            a + b + c + d == 1.0 && -1.0 * a + 1.0 * c + 2.0 * d == t
  {
    CurveShape(Bicubic, 1.0 + t);
    assert -(1.0 + t) == -1.0 - t;
    CurveShape(Bicubic, t);
    BicubicReproduces(t);
  }

  /** How far the center lies behind the center of the pixel under or before it. */
  ghost function Offset(c: real): (t: real)
    ensures 0.0 <= t < 1.0
  {
    c - 0.5 - (c - 0.5).Floor as real
  }

  /** Where the taps of an unscaled full window are. */
  lemma TapsAt(a: Axis, xx: nat, reach: nat, x: nat)
    requires a.Valid() && a.FilterScale() == 1.0 && a.Reach() == reach as real && 1 <= reach && x < 2 * reach
    requires a.Center(xx) >= reach as real && a.Center(xx) + reach as real <= a.inSize as real
    ensures a.Len(xx) == 2 * reach && a.Lo(xx) as real + reach as real - 0.5 + Offset(a.Center(xx)) == a.Center(xx)
    ensures a.Samples(xx)[x] == Eval(a.filter, x as real + 1.0 - reach as real - Offset(a.Center(xx)))
  {
    FullWindow(a.Center(xx), reach, a.inSize);
    SampleAt(a, xx, x);
  }

  lemma UnitScale(a: Axis, xx: nat)
    requires a.Valid() && (a.in1 - a.in0) / a.outSize as real <= 1.0
    ensures a.FilterScale() == 1.0 && a.Reach() == Support(a.filter) && a.Center(xx) == PlaceOf(a, xx)
  {
  }

  /** Enlarging reproduces constants and ramps exactly: the weights of every window that is
   *  not cut off sum to one, and the average of its pixel centers is the place of the
   *  output pixel. */
  lemma EnlargingKeepsRamps(a: Axis, xx: nat)
    requires a.Valid() && xx < a.outSize && (a.in1 - a.in0) / a.outSize as real <= 1.0
    requires PlaceOf(a, xx) >= Support(a.filter) && PlaceOf(a, xx) + Support(a.filter) <= a.inSize as real
    ensures Sum(a.Samples(xx)) == 1.0
    ensures Moment(a.Samples(xx), a.Lo(xx)) == PlaceOf(a, xx)
  {
    UnitScale(a, xx);
    var t := Offset(a.Center(xx));
    match a.filter
    case Bilinear =>
      TapsAt(a, xx, 1, 0);
      TapsAt(a, xx, 1, 1);
      TwoTaps(a.Samples(xx), a.Lo(xx), t);
    case Bicubic =>
      TapsAt(a, xx, 2, 0);
      TapsAt(a, xx, 2, 1);
      TapsAt(a, xx, 2, 2);
      TapsAt(a, xx, 2, 3);
      FourTaps(a.Samples(xx), a.Lo(xx), t);
  }
}
