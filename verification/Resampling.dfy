/** The two-pass resampling of crates/formula-texo/src/resample.rs: what the passes
 *  compute, and that running the horizontal pass on the needed rows only does not
 *  change the image. */
module Resampling {
  import opened Kernels
  import opened FixedPoint
  import opened Planes

  function RowSamples(src: Plane, y: nat, lo: nat, len: nat, b: nat): (s: seq<int>)
    requires src.Valid() && y < src.h && lo + len <= src.w && b < src.c
    ensures |s| == len && forall i :: 0 <= i < len ==> s[i] == At(src, y, lo + i, b)
  {
    seq(len, i requires 0 <= i < len => At(src, y, lo + i, b))
  }

  function ColumnSamples(src: Plane, lo: nat, len: nat, x: nat, b: nat): (s: seq<int>)
    requires src.Valid() && lo + len <= src.h && x < src.w && b < src.c
    ensures |s| == len && forall i :: 0 <= i < len ==> s[i] == At(src, lo + i, x, b)
  {
    seq(len, i requires 0 <= i < len => At(src, lo + i, x, b))
  }

  function Blend(k: seq<int>, px: seq<int>): (v: int)
    requires |px| <= |k|
    ensures 0 <= v <= 255
  {
    Clip8(Accumulate(k, px))
  }

  /** The axis resamples lines of `n` pixels. */
  predicate Along(a: Axis, n: nat) {
    a.Valid() && a.inSize == n
  }

  function HorizontalAt(src: Plane, a: Axis, y: nat, x: nat, b: nat): int
    requires src.Valid() && Along(a, src.w) && y < src.h && x < a.outSize && b < src.c
  {
    WindowsFit(a, x);
    Blend(a.Kernel(x), RowSamples(src, y, a.Lo(x), a.Len(x), b))
  }

  /** The horizontal pass over `rows` rows from `offset` on. */
  function Horizontal(src: Plane, a: Axis, offset: nat, rows: nat): (p: Plane)
    requires src.Valid() && Along(a, src.w) && offset + rows <= src.h
    ensures p.Valid() && p.w == a.outSize && p.h == rows && p.c == src.c
    ensures forall y: nat, x: nat, b: nat :: Inside(p, y, x, b) ==>
              At(p, y, x, b) == HorizontalAt(src, a, y + offset, x, b)
  {
    Generate(a.outSize, rows, src.c,
             (y: nat, x: nat, b: nat) requires y < rows && x < a.outSize && b < src.c =>
               HorizontalAt(src, a, y + offset, x, b))
  }

  /** `src` holds the rows from `shift` on that the windows of `a` read. */
  predicate Covers(src: Plane, a: Axis, shift: nat)
  {
    a.Valid() && forall y: nat :: y < a.outSize ==> shift <= a.Lo(y) && a.Lo(y) + a.Len(y) <= shift + src.h
  }

  function VerticalAt(src: Plane, a: Axis, shift: nat, y: nat, x: nat, b: nat): int
    requires src.Valid() && Covers(src, a, shift) && y < a.outSize && x < src.w && b < src.c
  {
    WindowsFit(a, y);
    Blend(a.Kernel(y), ColumnSamples(src, a.Lo(y) - shift, a.Len(y), x, b))
  }

  /** The vertical pass over a plane whose first row is row `shift` of the source. */
  function Vertical(src: Plane, a: Axis, shift: nat): (p: Plane)
    requires src.Valid() && Covers(src, a, shift)
    ensures p.Valid() && p.w == src.w && p.h == a.outSize && p.c == src.c
    ensures forall y: nat, x: nat, b: nat :: Inside(p, y, x, b) ==> At(p, y, x, b) == VerticalAt(src, a, shift, y, x, b)
  {
    Generate(src.w, a.outSize, src.c,
             (y: nat, x: nat, b: nat) requires y < a.outSize && x < src.w && b < src.c =>
               VerticalAt(src, a, shift, y, x, b))
  }

  /** Whether an axis changes anything. */
  predicate Needed(a: Axis) {
    a.outSize != a.inSize || a.in0 != 0.0 || a.in1 != a.inSize as real
  }

  predicate Fits(src: Plane, h: Axis, v: Axis) {
    src.Valid() && Along(h, src.w) && Along(v, src.h)
  }

  /** The plain form: all rows horizontally, then all columns vertically. */
  function TwoPass(src: Plane, h: Axis, v: Axis): (p: Plane)
    requires Fits(src, h, v)
    ensures p.Valid() && p.w == h.outSize && p.h == v.outSize && p.c == src.c
  {
    AllRowsCovered(v);
    var wide := if Needed(h) then Horizontal(src, h, 0, src.h) else src;
    if Needed(v) then Vertical(wide, v, 0) else wide
  }

  lemma AllRowsCovered(v: Axis)
    requires v.Valid()
    ensures forall y: nat :: y < v.outSize ==> 0 <= v.Lo(y) && v.Lo(y) + v.Len(y) <= v.inSize
  {
    forall y: nat | y < v.outSize ensures v.Lo(y) + v.Len(y) <= v.inSize {
      WindowsFit(v, y);
    }
  }

  // ----- the row window -----

  function FirstRow(v: Axis): nat
    requires v.Valid()
  {
    v.Lo(0)
  }

  function EndRow(v: Axis): nat
    requires v.Valid()
  {
    v.Lo(v.outSize - 1) + v.Len(v.outSize - 1)
  }

  lemma RowWindowCovers(v: Axis)
    requires v.Valid()
    ensures FirstRow(v) < EndRow(v) <= v.inSize
    ensures forall y: nat :: y < v.outSize ==> FirstRow(v) <= v.Lo(y) && v.Lo(y) + v.Len(y) <= EndRow(v)
  {
    WindowsFit(v, 0);
    WindowsFit(v, v.outSize - 1);
    WindowsAdvance(v, 0, v.outSize - 1);
    forall y: nat | y < v.outSize ensures FirstRow(v) <= v.Lo(y) && v.Lo(y) + v.Len(y) <= EndRow(v) {
      WindowsAdvance(v, 0, y);
      WindowsAdvance(v, y, v.outSize - 1);
    }
  }

  /** The rows the source resamples horizontally. */
  function NeededRows(src: Plane, h: Axis, v: Axis): (p: Plane)
    requires Fits(src, h, v)
    ensures p.Valid() && p.w == h.outSize && p.h == EndRow(v) - FirstRow(v) && p.c == src.c
    ensures Covers(p, v, FirstRow(v))
  {
    RowWindowCovers(v);
    Horizontal(src, h, FirstRow(v), EndRow(v) - FirstRow(v))
  }

  /** `few` holds the rows of `all` from `first` on. */
  ghost predicate RowsFrom(few: Plane, all: Plane, first: nat) {
    && few.Valid() && all.Valid() && few.w == all.w && few.c == all.c && first + few.h <= all.h
    && forall y: nat, x: nat, b: nat :: Inside(few, y, x, b) ==> At(few, y, x, b) == At(all, first + y, x, b)
  }

  lemma HorizontalRow(src: Plane, a: Axis, offset: nat, rows: nat, y: nat, x: nat, b: nat)
    requires src.Valid() && Along(a, src.w) && offset + rows <= src.h
    requires y < rows && x < a.outSize && b < src.c
    ensures At(Horizontal(src, a, offset, rows), y, x, b) == HorizontalAt(src, a, y + offset, x, b)
  {
    assert Inside(Horizontal(src, a, offset, rows), y, x, b);
  }

  lemma NeededRowsAreRows(src: Plane, h: Axis, v: Axis)
    requires Fits(src, h, v)
    ensures RowsFrom(NeededRows(src, h, v), Horizontal(src, h, 0, src.h), FirstRow(v))
  {
    RowWindowCovers(v);
    var few, all, first := NeededRows(src, h, v), Horizontal(src, h, 0, src.h), FirstRow(v);
    forall y: nat, x: nat, b: nat | Inside(few, y, x, b) ensures At(few, y, x, b) == At(all, first + y, x, b) {
      HorizontalRow(src, h, first, EndRow(v) - first, y, x, b);
      HorizontalRow(src, h, 0, src.h, first + y, x, b);
    }
  }

  /** The vertical pass reads the same samples from some rows as from all of them. */
  lemma VerticalOnRows(few: Plane, all: Plane, v: Axis, first: nat)
    requires RowsFrom(few, all, first) && Covers(few, v, first) && Covers(all, v, 0)
    ensures Vertical(few, v, first) == Vertical(all, v, 0)
  {
    var p, q := Vertical(few, v, first), Vertical(all, v, 0);
    forall y: nat, x: nat, b: nat | Inside(p, y, x, b) ensures At(p, y, x, b) == At(q, y, x, b) {
      assert Inside(q, y, x, b);
      forall i: nat | i < few.h ensures At(few, i, x, b) == At(all, first + i, x, b) {
        assert Inside(few, i, x, b);
      }
      ColumnsAgree(few, all, first, v.Lo(y), v.Len(y), x, b);
      assert VerticalAt(few, v, first, y, x, b) == VerticalAt(all, v, 0, y, x, b);
    }
    SamePlane(p, q);
  }

  lemma ColumnsAgree(few: Plane, all: Plane, first: nat, lo: nat, len: nat, x: nat, b: nat)
    requires few.Valid() && all.Valid() && x < few.w && x < all.w && b < few.c && b < all.c
    requires first <= lo && lo + len <= first + few.h <= all.h
    requires forall i: nat :: i < few.h ==> At(few, i, x, b) == At(all, first + i, x, b)
    ensures ColumnSamples(few, lo - first, len, x, b) == ColumnSamples(all, lo, len, x, b)
  {
    var s, t := ColumnSamples(few, lo - first, len, x, b), ColumnSamples(all, lo, len, x, b);
    forall i | 0 <= i < len ensures s[i] == t[i] {
      assert At(few, lo - first + i, x, b) == At(all, first + (lo - first + i), x, b);
    }
  }

  /** What the source computes. */
  function RowWindowed(src: Plane, h: Axis, v: Axis): (p: Plane)
    requires Fits(src, h, v)
    ensures p.Valid()
  {
    AllRowsCovered(v);
    var wide := if Needed(h) then NeededRows(src, h, v) else src;
    if Needed(v) then Vertical(wide, v, if Needed(h) then FirstRow(v) else 0) else wide
  }

  /** The row window changes no image, whether or not a vertical pass follows. */
  lemma RowWindowIsExact(src: Plane, h: Axis, v: Axis)
    requires Fits(src, h, v)
    ensures RowWindowed(src, h, v) == TwoPass(src, h, v)
  {
    if Needed(h) {
      if Needed(v) {
        NeededRowsAreRows(src, h, v);
        VerticalOnRows(NeededRows(src, h, v), Horizontal(src, h, 0, src.h), v, FirstRow(v));
      } else {
        UnitWindowsCover(v);
      }
    }
  }

  // ----- flat images -----

  /** Every window is short enough for the rounding errors not to add up to half a step. */
  predicate ShortWindows(a: Axis)
    requires a.Valid()
  {
    forall xx: nat :: xx < a.outSize ==> 255 * a.Len(xx) < ONE
  }

  lemma HorizontalKeepsFlat(src: Plane, a: Axis, b: nat, v: int)
    requires src.Valid() && Along(a, src.w) && ShortWindows(a) && 0 <= v <= 255 && Flat(src, b, v)
    ensures Flat(Horizontal(src, a, 0, src.h), b, v)
  {
    var p := Horizontal(src, a, 0, src.h);
    forall y: nat, x: nat | Inside(p, y, x, b) ensures At(p, y, x, b) == v {
      WindowsFit(a, x);
      FlatSample(a, x, RowSamples(src, y, a.Lo(x), a.Len(x), b), v);
      assert At(p, y, x, b) == HorizontalAt(src, a, y, x, b);
    }
  }

  lemma VerticalKeepsFlat(src: Plane, a: Axis, b: nat, v: int)
    requires src.Valid() && Along(a, src.h) && Covers(src, a, 0)
    requires ShortWindows(a) && 0 <= v <= 255 && Flat(src, b, v)
    ensures Flat(Vertical(src, a, 0), b, v)
  {
    var p := Vertical(src, a, 0);
    forall y: nat, x: nat | Inside(p, y, x, b) ensures At(p, y, x, b) == v {
      WindowsFit(a, y);
      FlatSample(a, y, ColumnSamples(src, a.Lo(y), a.Len(y), x, b), v);
      assert At(p, y, x, b) == VerticalAt(src, a, 0, y, x, b);
    }
  }

  /** Resampling a flat channel keeps its value, for both filters and any box whose
   *  windows are short. */
  lemma FlatStaysFlat(src: Plane, h: Axis, v: Axis, b: nat, value: int)
    requires Fits(src, h, v) && 0 <= value <= 255 && Flat(src, b, value)
    requires (Needed(h) ==> ShortWindows(h)) && (Needed(v) ==> ShortWindows(v))
    ensures Flat(TwoPass(src, h, v), b, value)
  {
    AllRowsCovered(v);
    if Needed(h) {
      HorizontalKeepsFlat(src, h, b, value);
    }
    var wide := if Needed(h) then Horizontal(src, h, 0, src.h) else src;
    if Needed(v) {
      VerticalKeepsFlat(wide, v, b, value);
    }
  }

  /** Windows are short as long as no more than 128 source pixels become one. */
  lemma ModestScale(a: Axis)
    requires a.Valid() && a.Scale() <= 128.0
    ensures ShortWindows(a)
  {
    assert a.Reach() <= 256.0;
    CeilUp(a.Reach());
    forall xx: nat | xx < a.outSize ensures 255 * a.Len(xx) < ONE {
      WindowsFit(a, xx);
    }
  }
}
