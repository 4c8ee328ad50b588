/** Which source samples the two-pass resampling of crates/formula-texo/src/resample.rs
 *  reads for a sample of its result. */
module ResamplingLaws {
  import opened Kernels
  import opened Planes
  import opened Resampling

  /** The places along one axis that the sample at `i` may depend on: its window, or only
   *  its own place when the axis is left as it is. */
  predicate Reads(a: Axis, i: nat, place: int)
    requires a.Valid() && i < a.outSize
  {
    if Needed(a) then a.Lo(i) <= place < a.Lo(i) + a.Len(i) else place == i
  }

  /** Two planes of one shape that agree in one channel where `(y, x)` may read. */
  ghost predicate AgreeFor(src: Plane, other: Plane, h: Axis, v: Axis, y: nat, x: nat, b: nat) {
    && Fits(src, h, v) && Fits(other, h, v) && src.c == other.c && b < src.c
    && y < v.outSize && x < h.outSize
    && forall r: nat, q: nat :: Inside(src, r, q, b) && Reads(v, y, r) && Reads(h, x, q) ==>
         At(src, r, q, b) == At(other, r, q, b)
  }

  function Wide(src: Plane, h: Axis): (p: Plane)
    requires src.Valid() && Along(h, src.w)
    ensures p.Valid() && (p.w, p.h, p.c) == (h.outSize, src.h, src.c)
  {
    if Needed(h) then Horizontal(src, h, 0, src.h) else src
  }

  lemma HorizontalReads(src: Plane, other: Plane, h: Axis, r: nat, x: nat, b: nat)
    requires src.Valid() && other.Valid() && Along(h, src.w) && src.w == other.w
    requires r < src.h == other.h && x < h.outSize && b < src.c == other.c
    requires forall q: nat :: Inside(src, r, q, b) && h.Lo(x) <= q < h.Lo(x) + h.Len(x) ==>
               At(src, r, q, b) == At(other, r, q, b)
    ensures HorizontalAt(src, h, r, x, b) == HorizontalAt(other, h, r, x, b)
  {
    WindowsFit(h, x);
    var lo, len := h.Lo(x), h.Len(x);
    var one, two := RowSamples(src, r, lo, len, b), RowSamples(other, r, lo, len, b);
    forall i | 0 <= i < len ensures one[i] == two[i] {
      assert Inside(src, r, lo + i, b);
    }
    assert one == two;
  }

  lemma VerticalReads(src: Plane, other: Plane, v: Axis, y: nat, x: nat, b: nat)
    requires src.Valid() && other.Valid() && Covers(src, v, 0) && Covers(other, v, 0)
    requires src.w == other.w && src.h == other.h && y < v.outSize && x < src.w && b < src.c == other.c
    requires forall r: nat :: Inside(src, r, x, b) && v.Lo(y) <= r < v.Lo(y) + v.Len(y) ==>
               At(src, r, x, b) == At(other, r, x, b)
    ensures VerticalAt(src, v, 0, y, x, b) == VerticalAt(other, v, 0, y, x, b)
  {
    WindowsFit(v, y);
    var lo, len := v.Lo(y), v.Len(y);
    var one, two := ColumnSamples(src, lo, len, x, b), ColumnSamples(other, lo, len, x, b);
    forall i | 0 <= i < len ensures one[i] == two[i] {
      assert Inside(src, lo + i, x, b);
    }
    assert one == two;
  }

  lemma WideAgrees(src: Plane, other: Plane, h: Axis, v: Axis, y: nat, x: nat, b: nat, r: nat)
    requires AgreeFor(src, other, h, v, y, x, b) && r < src.h && Reads(v, y, r)
    ensures At(Wide(src, h), r, x, b) == At(Wide(other, h), r, x, b)
  {
    assert Inside(Wide(src, h), r, x, b) && Inside(Wide(other, h), r, x, b);
    if Needed(h) {
      HorizontalReads(src, other, h, r, x, b);
    } else {
      assert Inside(src, r, x, b);
    }
  }

  lemma TallAgrees(one: Plane, two: Plane, v: Axis, y: nat, x: nat, b: nat)
    requires one.Valid() && two.Valid() && Along(v, one.h) && (one.w, one.h, one.c) == (two.w, two.h, two.c)
    requires Covers(one, v, 0) && Covers(two, v, 0) && Needed(v) && y < v.outSize && x < one.w && b < one.c
    requires forall r: nat :: Inside(one, r, x, b) && Reads(v, y, r) ==> At(one, r, x, b) == At(two, r, x, b)
    ensures At(Vertical(one, v, 0), y, x, b) == At(Vertical(two, v, 0), y, x, b)
  {
    VerticalReads(one, two, v, y, x, b);
    assert Inside(Vertical(one, v, 0), y, x, b) && Inside(Vertical(two, v, 0), y, x, b);
  }

  /** A sample of the result depends only on its own channel, and there only on the rows
   *  that the vertical window and the columns that the horizontal window of its place
   *  select: nothing that happens to the other samples changes it. */
  lemma ReadsOnlyItsWindows(src: Plane, other: Plane, h: Axis, v: Axis, y: nat, x: nat, b: nat)
    requires AgreeFor(src, other, h, v, y, x, b)
    ensures At(TwoPass(src, h, v), y, x, b) == At(TwoPass(other, h, v), y, x, b)
  {
    AllRowsCovered(v);
    var one, two := Wide(src, h), Wide(other, h);
    forall r: nat | Inside(one, r, x, b) && Reads(v, y, r) ensures At(one, r, x, b) == At(two, r, x, b) {
      WideAgrees(src, other, h, v, y, x, b, r);
    }
    if Needed(v) {
      TallAgrees(one, two, v, y, x, b);
    } else {
      assert Inside(one, y, x, b);
    }
  }
}
