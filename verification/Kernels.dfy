/** Filter windows and fixed-point kernels of crates/formula-texo/src/resample.rs.
 *  The source's f64 values are exact reals here. */
module Kernels {
  datatype Filter = Bilinear | Bicubic

  /** The fixed-point one, 22 fraction bits. */
  const ONE := 0x40_0000

  function Support(f: Filter): (s: real)
    ensures s >= 1.0
  {
    if f == Bilinear then 1.0 else 2.0
  }

  function Eval(f: Filter, x: real): real {
    var x := if x < 0.0 then -x else x;
    match f
    case Bilinear => if x < 1.0 then 1.0 - x else 0.0
    case Bicubic =>
      if x < 1.0 then (1.5 * x - 2.5) * x * x + 1.0
      else if x < 2.0 then (((x - 5.0) * x + 8.0) * x - 4.0) * -0.5
      else 0.0
  }

  /** A float-to-integer cast: towards zero. */
  function Trunc(r: real): int {
    if r < 0.0 then -((-r).Floor) else r.Floor
  }

  function Ceil(r: real): int {
    -((-r).Floor)
  }

  /** One axis of a resampling: `outSize` samples of the box `in0..in1` of a line
   *  of `inSize` pixels. */
  datatype Axis = Axis(filter: Filter, inSize: nat, in0: real, in1: real, outSize: nat)
  {
    predicate Valid() {
      0.0 <= in0 < in1 <= inSize as real && outSize > 0
    }

    function Scale(): (r: real)
      requires Valid()
      ensures r > 0.0
    {
      (in1 - in0) / outSize as real
    }

    function FilterScale(): (r: real)
      requires Valid()
      ensures r >= 1.0 && r >= Scale()
    {
      if Scale() < 1.0 then 1.0 else Scale()
    }

    function Reach(): (r: real)
      requires Valid()
      ensures r >= 1.0 && r >= FilterScale()
    {
      Support(filter) * FilterScale()
    }

    function KSize(): (k: nat)
      requires Valid()
      ensures k > 2
    {
      CeilUp(Reach());
      2 * Ceil(Reach()) + 1
    }

    function Center(xx: nat): real
      requires Valid()
    {
      in0 + (xx as real + 0.5) * Scale()
    }

    function Lo(xx: nat): nat
      requires Valid()
    {
      WindowLo(Center(xx), Reach())
    }

    function Len(xx: nat): nat
      requires Valid()
    {
      WindowLen(Center(xx), Reach(), inSize)
    }

    /** The unnormalized weights of one output position. */
    function Samples(xx: nat): (s: seq<real>)
      requires Valid()
      ensures |s| == Len(xx)
    {
      Curve(Tap(Shape(filter), 1.0 / FilterScale()), Center(xx), Lo(xx), Len(xx))
    }

    function Kernel(xx: nat): (k: seq<int>)
      requires Valid() && xx < outSize
      ensures |k| == KSize()
    {
      WindowsFit(this, xx);
      Pad(FixedWeights(Samples(xx)), KSize())
    }
  }

  /** The filter curve, over distances in pixels. */
  function Tap(shape: real -> real, unit: real): real -> real {
    d => shape(Units(d, unit))
  }

  function Units(d: real, unit: real): real {
    d * unit
  }

  function Shape(f: Filter): real -> real {
    x => Eval(f, x)
  }

  function Curve(tap: real -> real, center: real, lo: nat, len: nat): (s: seq<real>)
    ensures |s| == len
    ensures forall x :: 0 <= x < len ==> s[x] == tap(x as real + lo as real - center + 0.5)
  {
    seq(len, x requires x >= 0 => tap(x as real + lo as real - center + 0.5))
  }

  function Sum(s: seq<real>): real {
    if s == [] then 0.0 else Sum(s[..|s| - 1]) + s[|s| - 1]
  }

  /** Weights divided by their sum, unless that is zero, and rounded half away from
   *  zero into fixed point. */
  function FixedWeights(s: seq<real>): (k: seq<int>)
    ensures |k| == |s|
    ensures forall x :: 0 <= x < |s| ==> k[x] == RoundAway(Normal(s[x], Sum(s)) * ONE as real)
  {
    seq(|s|, x requires 0 <= x < |s| => RoundAway(Normal(s[x], Sum(s)) * ONE as real))
  }

  function Normal(w: real, total: real): real {
    if total == 0.0 then w else w / total
  }

  function Pad(k: seq<int>, size: nat): (r: seq<int>)
    requires |k| <= size
    ensures |r| == size && r[..|k|] == k
    ensures forall x :: |k| <= x < size ==> r[x] == 0
  {
    k + seq(size - |k|, _ => 0)
  }

  lemma CeilUp(r: real)
    ensures r <= Ceil(r) as real < r + 1.0
  {
  }

  function RoundAway(v: real): (r: int)
    ensures -0.5 <= r as real - v <= 0.5
  {
    if v < 0.0 then Trunc(v - 0.5) else Trunc(v + 0.5)
  }

  function WindowLo(center: real, reach: real): nat {
    var lo := Trunc(center - reach + 0.5);
    if lo < 0 then 0 else lo
  }

  function WindowLen(center: real, reach: real, inSize: nat): nat {
    var hi := Trunc(center + reach + 0.5);
    var len := (if hi > inSize then inSize else hi) - WindowLo(center, reach);
    if len < 0 then 0 else len
  }

  // ----- windows -----

  /** A window lies inside the source, contains the pixel under its center and is
   *  shorter than the kernel buffer. */
  lemma WindowInside(center: real, reach: real, inSize: nat)
    requires 0.0 <= center < inSize as real && reach >= 1.0
    ensures WindowLo(center, reach) <= center.Floor
    ensures center.Floor < WindowLo(center, reach) + WindowLen(center, reach, inSize) <= inSize
    ensures WindowLen(center, reach, inSize) < 2 * Ceil(reach) + 1
  {
    CeilUp(reach);
  }

  lemma WindowMonotone(a: real, b: real, reach: real, inSize: nat)
    requires 0.0 <= a <= b < inSize as real && reach >= 1.0
    ensures WindowLo(a, reach) <= WindowLo(b, reach)
    ensures WindowLo(a, reach) + WindowLen(a, reach, inSize) <= WindowLo(b, reach) + WindowLen(b, reach, inSize)
  {
    WindowInside(a, reach, inSize);
    WindowInside(b, reach, inSize);
  }

  lemma Scaled(x: real, y: real, k: real)
    requires x <= y && k >= 0.0
    ensures x * k <= y * k
  {
  }

  lemma CenterInside(a: Axis, xx: nat)
    requires a.Valid() && xx < a.outSize
    ensures 0.0 <= a.in0 + 0.5 * a.Scale() <= a.Center(xx) <= a.in1 - 0.5 * a.Scale()
    ensures a.Center(xx) < a.inSize as real
  {
    var s, n := a.Scale(), a.outSize as real;
    assert s * n == a.in1 - a.in0;
    Middle(xx as real + 0.5, n, s, a.in1 - a.in0);
  }

  lemma Middle(x: real, n: real, s: real, width: real)
    requires s > 0.0 && 0.5 <= x <= n - 0.5 && s * n == width
    ensures 0.5 * s <= x * s <= width - 0.5 * s
  {
    Scaled(0.5, x, s);
    Scaled(x, n - 0.5, s);
    assert (n - 0.5) * s == s * n - 0.5 * s;
  }

  lemma CentersMonotone(a: Axis, xx: nat, yy: nat)
    requires a.Valid() && xx <= yy
    ensures a.Center(xx) <= a.Center(yy)
  {
    Scaled(xx as real + 0.5, yy as real + 0.5, a.Scale());
  }

  /** The windows of one axis: inside the source, nonempty, within the kernel
   *  buffer, and moving only forward. */
  lemma WindowsFit(a: Axis, xx: nat)
    requires a.Valid() && xx < a.outSize
    ensures 1 <= a.Len(xx) < a.KSize() && a.Lo(xx) + a.Len(xx) <= a.inSize
    ensures a.Lo(xx) <= a.Center(xx).Floor < a.Lo(xx) + a.Len(xx)
  {
    CenterInside(a, xx);
    WindowInside(a.Center(xx), a.Reach(), a.inSize);
  }

  lemma WindowsAdvance(a: Axis, xx: nat, yy: nat)
    requires a.Valid() && xx <= yy < a.outSize
    ensures a.Lo(xx) <= a.Lo(yy)
    ensures a.Lo(xx) + a.Len(xx) <= a.Lo(yy) + a.Len(yy)
  {
    CenterInside(a, xx);
    CenterInside(a, yy);
    CentersMonotone(a, xx, yy);
    WindowMonotone(a.Center(xx), a.Center(yy), a.Reach(), a.inSize);
  }

  /** At unit scale over the whole line the windows reach both ends. */
  lemma UnitWindowsCover(a: Axis)
    requires a.Valid() && a.in0 == 0.0 && a.in1 == a.inSize as real && a.outSize == a.inSize
    ensures a.Lo(0) == 0
    ensures a.Lo(a.outSize - 1) + a.Len(a.outSize - 1) == a.inSize
  {
    assert a.Scale() == 1.0;
    WindowsFit(a, a.outSize - 1);
  }
}
