/** The loops of crates/formula-texo/src/resample.rs, on buffers. */
module ResamplingLoops {
  import opened Kernels
  import opened FixedPoint
  import opened Planes
  import opened Resampling

  /** Window bounds, and one kernel of `ksize` fixed-point weights an output position. */
  datatype Coeffs = Coeffs(ksize: nat, bounds: seq<(nat, nat)>, kk: seq<int>)

  ghost predicate Matches(c: Coeffs, a: Axis, shift: nat) {
    && a.Valid() && c.ksize == a.KSize() && |c.bounds| == a.outSize && |c.kk| == a.outSize * c.ksize
    && forall xx: nat :: xx < a.outSize ==> Entry(c, a, shift, xx)
  }

  ghost predicate Entry(c: Coeffs, a: Axis, shift: nat, xx: nat)
    requires a.Valid() && c.ksize == a.KSize() && |c.kk| == a.outSize * c.ksize && xx < a.outSize
  {
    && xx < |c.bounds| && shift <= a.Lo(xx) && c.bounds[xx] == (a.Lo(xx) - shift, a.Len(xx))
    && KernelStored(c.kk, a, xx)
  }

  /** The `xx`-th stretch of `kk` is the kernel of `xx`. */
  ghost predicate KernelStored(kk: seq<int>, a: Axis, xx: nat)
    requires a.Valid() && xx < a.outSize && |kk| == a.outSize * a.KSize()
  {
    StretchInside(a.outSize, a.KSize(), xx);
    kk[xx * a.KSize()..xx * a.KSize() + a.KSize()] == a.Kernel(xx)
  }

  lemma StretchInside(n: nat, k: nat, xx: nat)
    requires xx < n
    ensures xx * k + k <= n * k
  {
    TimesBelow(xx, n, k);
  }

  // ----- coefficients -----

  /** Normalized weights, then zeros. */
  function Normalized(s: seq<real>, size: nat): (k: seq<real>)
    ensures |k| == size
  {
    seq(size, x requires 0 <= x < size => if x < |s| then Normal(s[x], Sum(s)) else 0.0)
  }

  function Rounded(k: seq<real>): (r: seq<int>)
    ensures |r| == |k|
  {
    seq(|k|, x requires 0 <= x < |k| => RoundAway(k[x] * ONE as real))
  }

  lemma NormalizedRounds(a: Axis, xx: nat)
    requires a.Valid() && xx < a.outSize
    ensures Rounded(Normalized(a.Samples(xx), a.KSize())) == a.Kernel(xx)
  {
    WindowsFit(a, xx);
    var s, kernel := a.Samples(xx), a.Kernel(xx);
    var k := Normalized(s, a.KSize());
    forall x | 0 <= x < |k| ensures Rounded(k)[x] == kernel[x] {
      if x < |s| {
        assert kernel[..|s|][x] == FixedWeights(s)[x];
      }
    }
  }

  /** Samples the filter over one window and sums the samples. */
  method SampleWindow(tap: real -> real, center: real, lo: nat, len: nat, k: array<real>) returns (ww: real)
    requires len <= k.Length
    modifies k
    ensures k[..len] == Curve(tap, center, lo, len)
    ensures ww == Sum(k[..len])
  {
    ghost var s := Curve(tap, center, lo, len);
    ww := 0.0;
    for x := 0 to len
      invariant k[..x] == s[..x]
      invariant ww == Sum(k[..x])
    {
      var w := tap(x as real + lo as real - center + 0.5);
      ghost var before := k[..x];
      k[x] := w;
      assert k[..x + 1] == before + [w] && k[..x + 1][..x] == before;
      ww := ww + w;
    }
  }

  method DivideAll(k: array<real>, len: nat, ww: real)
    requires len <= k.Length && ww != 0.0
    modifies k
    ensures forall x :: 0 <= x < len ==> k[x] == old(k[x]) / ww
    ensures forall x :: len <= x < k.Length ==> k[x] == old(k[x])
  {
    for x := 0 to len
      invariant forall j :: 0 <= j < x ==> k[j] == old(k[j]) / ww
      invariant forall j :: x <= j < k.Length ==> k[j] == old(k[j])
    {
      k[x] := k[x] / ww;
    }
  }

  method ClearFrom(k: array<real>, len: nat)
    requires len <= k.Length
    modifies k
    ensures forall x :: 0 <= x < len ==> k[x] == old(k[x])
    ensures forall x :: len <= x < k.Length ==> k[x] == 0.0
  {
    for x := len to k.Length
      invariant forall j :: 0 <= j < len ==> k[j] == old(k[j])
      invariant forall j :: len <= j < x ==> k[j] == 0.0
    {
      k[x] := 0.0;
    }
  }

  /** The weights of one window: sample the filter, divide by the sum, clear the rest. */
  method FillWeights(tap: real -> real, center: real, lo: nat, len: nat, k: array<real>)
    requires len <= k.Length
    modifies k
    ensures k[..] == Normalized(Curve(tap, center, lo, len), k.Length)
  {
    var ww := SampleWindow(tap, center, lo, len, k);
    ghost var s := k[..len];
    assert forall x :: 0 <= x < len ==> k[x] == s[x];
    if ww != 0.0 {
      DivideAll(k, len, ww);
    }
    assert forall x :: 0 <= x < len ==> k[x] == Normal(s[x], ww);
    ClearFrom(k, len);
  }

  /** Rounds one kernel into its stretch of `kk`. */
  method FillFixed(k: array<real>, kk: array<int>, from: nat)
    requires from + k.Length <= kk.Length
    modifies kk
    ensures kk[from..from + k.Length] == Rounded(k[..])
    ensures kk[..from] == old(kk[..from])
  {
    for x := 0 to k.Length
      invariant forall j :: 0 <= j < x ==> kk[from + j] == RoundAway(k[j] * ONE as real)
      invariant kk[..from] == old(kk[..from])
    {
      kk[from + x] := RoundAway(k[x] * ONE as real);
    }
  }

  /** One output position: its weights, rounded into the next stretch. */
  method StoreKernel(a: Axis, xx: nat, from: nat, k: array<real>, kk: array<int>)
    requires a.Valid() && xx < a.outSize && k.Length == a.KSize() && kk.Length == a.outSize * a.KSize()
    requires from == xx * a.KSize() && from + k.Length <= kk.Length
    modifies k, kk
    ensures kk[from..from + k.Length] == a.Kernel(xx)
    ensures kk[..from] == old(kk[..from])
  {
    WindowsFit(a, xx);
    FillWeights(Tap(Shape(a.filter), 1.0 / a.FilterScale()), a.Center(xx), a.Lo(xx), a.Len(xx), k);
    NormalizedRounds(a, xx);
    FillFixed(k, kk, from);
  }

  method PrecomputeCoeffs(a: Axis) returns (c: Coeffs)
    requires a.Valid()
    ensures Matches(c, a, 0)
  {
    var ksize := a.KSize();
    var bounds: seq<(nat, nat)> := [];
    var kk := new int[a.outSize * ksize](_ => 0);
    var k := new real[ksize](_ => 0.0);
    for xx := 0 to a.outSize
      invariant |bounds| == xx
      invariant forall j :: 0 <= j < xx ==> bounds[j] == (a.Lo(j), a.Len(j))
      invariant forall j: nat :: j < xx ==> KernelStored(kk[..], a, j)
    {
      ghost var before := kk[..];
      StretchInside(a.outSize, ksize, xx);
      StoreKernel(a, xx, xx * ksize, k, kk);
      StretchStored(a, xx, xx * ksize, before, kk[..]);
      bounds := bounds + [(a.Lo(xx), a.Len(xx))];
    }
    c := Coeffs(ksize, bounds, kk[..]);
  }

  lemma StretchStored(a: Axis, xx: nat, from: nat, before: seq<int>, after: seq<int>)
    requires a.Valid() && xx < a.outSize && |before| == |after| == a.outSize * a.KSize()
    requires from == xx * a.KSize() && from + a.KSize() <= |after|
    requires after[from..from + a.KSize()] == a.Kernel(xx) && after[..from] == before[..from]
    requires forall j: nat :: j < xx ==> KernelStored(before, a, j)
    ensures forall j: nat :: j <= xx ==> KernelStored(after, a, j)
  {
    var n := a.KSize();
    forall j: nat | j <= xx ensures KernelStored(after, a, j) {
      if j < xx {
        StretchInside(a.outSize, n, j);
        TimesBelow(j, xx, n);
        assert KernelStored(before, a, j);
        SamePart(before, after, j * n, n, from);
      }
    }
  }

  lemma SamePart(before: seq<int>, after: seq<int>, i: nat, n: nat, from: nat)
    requires i + n <= from <= |before| == |after| && after[..from] == before[..from]
    ensures after[i..i + n] == before[i..i + n]
  {
    assert after[i..i + n] == after[..from][i..i + n];
    assert before[i..i + n] == before[..from][i..i + n];
  }

  // ----- passes -----

  function KernelAt(c: Coeffs, xx: nat): seq<int>
    requires xx * c.ksize + c.ksize <= |c.kk|
  {
    c.kk[xx * c.ksize..xx * c.ksize + c.ksize]
  }

  lemma MatchesAt(c: Coeffs, a: Axis, shift: nat, xx: nat)
    requires Matches(c, a, shift) && xx < a.outSize
    ensures shift <= a.Lo(xx) && c.bounds[xx] == (a.Lo(xx) - shift, a.Len(xx))
    ensures xx * c.ksize + c.ksize <= |c.kk| && KernelAt(c, xx) == a.Kernel(xx)
    ensures a.Len(xx) <= |a.Kernel(xx)|
  {
    StretchInside(a.outSize, c.ksize, xx);
    WindowsFit(a, xx);
    assert Entry(c, a, shift, xx);
  }

  method BlendRow(src: Plane, y: nat, xmin: nat, xlen: nat, b: nat, k: seq<int>) returns (v: int)
    requires src.Valid() && y < src.h && xmin + xlen <= src.w && b < src.c && xlen <= |k|
    ensures v == Blend(k, RowSamples(src, y, xmin, xlen, b))
  {
    var srow := y * src.w * src.c;
    ghost var s := RowSamples(src, y, xmin, xlen, b);
    var ss := HALF;
    assert s[..0] == [];
    for x := 0 to xlen
      invariant ss == Accumulate(k, s[..x])
    {
      RowAddress(src.w, src.c, y, xmin + x, b);
      SlotInside(src.w, src.h, src.c, y, xmin + x, b);
      var px := src.data[srow + (xmin + x) * src.c + b];
      assert px == s[x] && s[..x + 1][..x] == s[..x];
      ss := Wrap(ss + Wrap(px * k[x]));
    }
    assert s[..xlen] == s;
    v := Clip8(ss);
  }

  method BlendColumn(src: Plane, ymin: nat, ylen: nat, x: nat, b: nat, k: seq<int>) returns (v: int)
    requires src.Valid() && ymin + ylen <= src.h && x < src.w && b < src.c && ylen <= |k|
    ensures v == Blend(k, ColumnSamples(src, ymin, ylen, x, b))
  {
    ghost var s := ColumnSamples(src, ymin, ylen, x, b);
    var ss := HALF;
    assert s[..0] == [];
    for y := 0 to ylen
      invariant ss == Accumulate(k, s[..y])
    {
      RowAddress(src.w, src.c, ymin + y, x, b);
      SlotInside(src.w, src.h, src.c, ymin + y, x, b);
      var px := src.data[(ymin + y) * src.w * src.c + x * src.c + b];
      assert px == s[y] && s[..y + 1][..y] == s[..y];
      ss := Wrap(ss + Wrap(px * k[y]));
    }
    assert s[..ylen] == s;
    v := Clip8(ss);
  }

  method PutHorizontal(src: Plane, a: Axis, offset: nat, c: Coeffs, out: array<int>, ghost p: Plane, yy: nat, xx: nat)
    requires src.Valid() && Along(a, src.w) && Matches(c, a, 0) && offset + p.h <= src.h
    requires p == Horizontal(src, a, offset, p.h) && yy < p.h && xx < a.outSize
    requires Holds(out[..], p, Slot(a.outSize, src.c, yy, xx, 0))
    modifies out
    ensures Holds(out[..], p, Slot(a.outSize, src.c, yy, xx + 1, 0))
  {
    for b := 0 to src.c
      invariant Holds(out[..], p, Slot(a.outSize, src.c, yy, xx, b))
    {
      var v := HorizontalSample(src, a, c, yy + offset, xx, b);
      PutSample(out, p, a.outSize, src.c, yy, xx, b, v);
    }
    SlotNext(a.outSize, src.c, yy, xx);
  }

  method HorizontalSample(src: Plane, a: Axis, c: Coeffs, y: nat, xx: nat, b: nat) returns (v: int)
    requires src.Valid() && Along(a, src.w) && Matches(c, a, 0) && y < src.h && xx < a.outSize && b < src.c
    ensures v == HorizontalAt(src, a, y, xx, b)
  {
    MatchesAt(c, a, 0, xx);
    WindowsFit(a, xx);
    var (xmin, xlen) := c.bounds[xx];
    v := BlendRow(src, y, xmin, xlen, b, KernelAt(c, xx));
  }

  method VerticalSample(src: Plane, a: Axis, shift: nat, c: Coeffs, yy: nat, x: nat, b: nat) returns (v: int)
    requires src.Valid() && Covers(src, a, shift) && Matches(c, a, shift) && yy < a.outSize && x < src.w && b < src.c
    ensures v == VerticalAt(src, a, shift, yy, x, b)
  {
    MatchesAt(c, a, shift, yy);
    var (ymin, ylen) := c.bounds[yy];
    v := BlendColumn(src, ymin, ylen, x, b, KernelAt(c, yy));
  }

  method ResampleHorizontal(src: Plane, a: Axis, offset: nat, rows: nat, c: Coeffs) returns (out: Plane)
    requires src.Valid() && Along(a, src.w) && Matches(c, a, 0) && offset + rows <= src.h
    ensures out == Horizontal(src, a, offset, rows)
  {
    ghost var p := Horizontal(src, a, offset, rows);
    var data := new int[a.outSize * rows * src.c](_ => 0);
    for yy := 0 to rows
      invariant Holds(data[..], p, Slot(a.outSize, src.c, yy, 0, 0))
    {
      for xx := 0 to a.outSize
        invariant Holds(data[..], p, Slot(a.outSize, src.c, yy, xx, 0))
      {
        PutHorizontal(src, a, offset, c, data, p, yy, xx);
      }
      SlotNext(a.outSize, src.c, yy, 0);
    }
    RasterDone(data[..], p);
    out := Plane(a.outSize, rows, src.c, data[..]);
  }

  method PutVertical(src: Plane, a: Axis, shift: nat, c: Coeffs, out: array<int>, ghost p: Plane, yy: nat, xx: nat)
    requires src.Valid() && Covers(src, a, shift) && Matches(c, a, shift)
    requires p == Vertical(src, a, shift) && yy < a.outSize && xx < src.w
    requires Holds(out[..], p, Slot(src.w, src.c, yy, xx, 0))
    modifies out
    ensures Holds(out[..], p, Slot(src.w, src.c, yy, xx + 1, 0))
  {
    for b := 0 to src.c
      invariant Holds(out[..], p, Slot(src.w, src.c, yy, xx, b))
    {
      var v := VerticalSample(src, a, shift, c, yy, xx, b);
      PutSample(out, p, src.w, src.c, yy, xx, b, v);
    }
    SlotNext(src.w, src.c, yy, xx);
  }

  method ResampleVertical(src: Plane, a: Axis, shift: nat, c: Coeffs) returns (out: Plane)
    requires src.Valid() && Covers(src, a, shift) && Matches(c, a, shift)
    ensures out == Vertical(src, a, shift)
  {
    ghost var p := Vertical(src, a, shift);
    var data := new int[src.w * a.outSize * src.c](_ => 0);
    for yy := 0 to a.outSize
      invariant Holds(data[..], p, Slot(src.w, src.c, yy, 0, 0))
    {
      for xx := 0 to src.w
        invariant Holds(data[..], p, Slot(src.w, src.c, yy, xx, 0))
      {
        PutVertical(src, a, shift, c, data, p, yy, xx);
      }
      SlotNext(src.w, src.c, yy, 0);
    }
    RasterDone(data[..], p);
    out := Plane(src.w, a.outSize, src.c, data[..]);
  }

  /** Moves the vertical bounds to the first row that the horizontal pass keeps. */
  method ShiftBounds(c: Coeffs, a: Axis, first: nat) returns (r: Coeffs)
    requires Matches(c, a, 0) && forall y: nat :: y < a.outSize ==> first <= a.Lo(y)
    ensures Matches(r, a, first)
  {
    var bounds := c.bounds;
    forall j: nat | j < a.outSize ensures bounds[j] == (a.Lo(j), a.Len(j)) {
      MatchesAt(c, a, 0, j);
    }
    for y := 0 to |bounds|
      invariant |bounds| == a.outSize
      invariant forall j :: 0 <= j < y ==> bounds[j] == (a.Lo(j) - first, a.Len(j))
      invariant forall j :: y <= j < |bounds| ==> bounds[j] == (a.Lo(j), a.Len(j))
    {
      bounds := bounds[y := (bounds[y].0 - first, bounds[y].1)];
    }
    r := c.(bounds := bounds);
    forall xx: nat | xx < a.outSize ensures Entry(r, a, first, xx) {
      assert Entry(c, a, 0, xx);
    }
  }

  /** The whole resampling gives what the plain two passes give. */
  method Resample(src: Plane, h: Axis, v: Axis) returns (out: Plane)
    requires Fits(src, h, v) && h.filter == v.filter
    ensures out == TwoPass(src, h, v)
  {
    AllRowsCovered(v);
    RowWindowIsExact(src, h, v);
    if !Needed(h) && !Needed(v) {
      return src;
    }
    var horizontal := PrecomputeCoeffs(h);
    var vertical := PrecomputeCoeffs(v);
    var shift := 0;
    out := src;
    if Needed(h) {
      MatchesAt(vertical, v, 0, 0);
      MatchesAt(vertical, v, 0, v.outSize - 1);
      RowWindowCovers(v);
      var first := vertical.bounds[0].0;
      var last := vertical.bounds[v.outSize - 1];
      vertical := ShiftBounds(vertical, v, first);
      out := ResampleHorizontal(src, h, first, last.0 + last.1 - first, horizontal);
      shift := first;
    }
    if Needed(v) {
      out := ResampleVertical(out, v, shift, vertical);
    }
  }
}
