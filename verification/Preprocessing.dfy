/** crates/formula-texo/src/preprocess.rs, and the size guard of
 *  optimum-texo/preprocessing.py. */
module Preprocessing {
  import opened Wrappers
  import opened Kernels
  import opened Planes
  import opened Resizing
  import B = BoxReduction

  const SIDE := 384
  const MAX_PIXELS := 16_777_216

  // ----- the guards -----

  /** The Rust guard, on the cropped size. */
  predicate RustAccepts(w: nat, h: nat)
    requires w > 0 && h > 0
  {
    (if w > h then w else h) * SIDE / (if w < h then w else h) <= MAX_PIXELS / SIDE
  }

  /** The Python guard: it multiplies the two sides of the resized image. */
  predicate PythonAccepts(w: nat, h: nat)
    requires w > 0 && h > 0
  {
    var size := if w < h then (SIDE, (SIDE as real * h as real / w as real).Floor)
                else ((SIDE as real * w as real / h as real).Floor, SIDE);
    size.0 * size.1 <= MAX_PIXELS
  }

  /** Both implementations accept the same crops. */
  lemma GuardsAgree(w: nat, h: nat)
    requires w > 0 && h > 0
    ensures RustAccepts(w, h) <==> PythonAccepts(w, h)
  {
    var long, short := if w > h then w else h, if w < h then w else h;
    StretchedIsFloor(SIDE, long, short);
    assert long * SIDE == SIDE * long;
    assert PythonAccepts(w, h) <==> SIDE * Stretched(SIDE, long, short) <= MAX_PIXELS;
  }

  /** What the guard protects: the short-side resize stays below the limit, and keeps both
   *  sides at least at the canvas size. */
  lemma AcceptedResize(w: nat, h: nat)
    requires w > 0 && h > 0 && RustAccepts(w, h)
    ensures var (ow, oh) := ShortSideSize(w, h, SIDE);
            && ow * oh <= 16777216
            && ow >= 384 && oh >= 384 && (ow == 384 || oh == 384)
  {
    var long, short := if w > h then w else h, if w < h then w else h;
    StretchedIsLong(SIDE, long, short);
    assert long * SIDE == SIDE * long;
  }

  /** A rejected crop would have exceeded the limit. */
  lemma RejectedResize(w: nat, h: nat)
    requires w > 0 && h > 0 && !RustAccepts(w, h)
    ensures var (ow, oh) := ShortSideSize(w, h, SIDE); ow * oh > 16777216
  {
    var long, short := if w > h then w else h, if w < h then w else h;
    assert long * SIDE == SIDE * long;
  }

  // ----- grey levels -----

  /** `convert("L")` in 16-bit fixed point. */
  function PilLuma(r: int, g: int, b: int): int {
    (r * 19595 + g * 38470 + b * 7471 + 0x8000) / 0x1_0000
  }

  function CvLuma(r: int, g: int, b: int): int {
    (r * 4899 + g * 9617 + b * 1868 + 8192) / 0x4000
  }

  predicate Byte(v: int) {
    0 <= v <= 255
  }

  /** Both kernels stay within a byte and keep greys. */
  lemma LumaOfBytes(r: int, g: int, b: int)
    requires Byte(r) && Byte(g) && Byte(b)
    ensures Byte(PilLuma(r, g, b)) && Byte(CvLuma(r, g, b))
    ensures r == g == b ==> PilLuma(r, g, b) == r == CvLuma(r, g, b)
  {
  }

  // ----- the crop -----

  predicate Rgb(p: Plane) {
    p.Valid() && p.c == 3
  }

  function LumaAt(p: Plane, y: nat, x: nat): int
    requires Rgb(p) && y < p.h && x < p.w
  {
    PilLuma(At(p, y, x, 0), At(p, y, x, 1), At(p, y, x, 2))
  }

  /** A pixel is ink when its stretched grey level is below 200. */
  predicate Ink(p: Plane, lo: int, hi: int, y: nat, x: nat)
    requires Rgb(p) && y < p.h && x < p.w && lo < hi
  {
    IsInk(LumaAt(p, y, x), lo, hi)
  }

  predicate IsInk(luma: int, lo: int, hi: int)
    requires lo < hi
  {
    (luma - lo) as real / (hi - lo) as real * 255.0 < 200.0
  }

  ghost predicate Range(p: Plane, lo: int, hi: int)
    requires Rgb(p)
  {
    && (forall y: nat, x: nat :: y < p.h && x < p.w ==> lo <= LumaAt(p, y, x) <= hi)
    && (exists y: nat, x: nat :: y < p.h && x < p.w && LumaAt(p, y, x) == lo)
    && (exists y: nat, x: nat :: y < p.h && x < p.w && LumaAt(p, y, x) == hi)
  }

  /** First and last column and row, inclusive. */
  datatype Box = Box(x0: nat, y0: nat, x1: nat, y1: nat)
  {
    predicate Inside(p: Plane) {
      x0 <= x1 < p.w && y0 <= y1 < p.h
    }

    function W(): nat
      requires x0 <= x1
    {
      x1 - x0 + 1
    }

    function H(): nat
      requires y0 <= y1
    {
      y1 - y0 + 1
    }
  }

  /** The ink pixels, row and column, before `(row, col)` in reading order. */
  ghost function InkBefore(p: Plane, lo: int, hi: int, row: nat, col: nat): set<(nat, nat)>
    requires Rgb(p) && lo < hi
  {
    set y: nat, x: nat | y < p.h && x < p.w && (y < row || (y == row && x < col)) && Ink(p, lo, hi, y, x) :: (y, x)
  }

  /** The box holds every pixel, and each of its edges carries one. */
  ghost predicate Bounds(pixels: set<(nat, nat)>, b: Box) {
    && (forall q :: q in pixels ==> b.x0 <= q.1 <= b.x1 && b.y0 <= q.0 <= b.y1)
    && (exists q :: q in pixels && q.1 == b.x0) && (exists q :: q in pixels && q.1 == b.x1)
    && (exists q :: q in pixels && q.0 == b.y0) && (exists q :: q in pixels && q.0 == b.y1)
  }

  ghost predicate Tight(p: Plane, lo: int, hi: int, b: Box)
    requires Rgb(p) && lo < hi
  {
    b.Inside(p) && Bounds(InkBefore(p, lo, hi, p.h, 0), b)
  }

  lemma TightIsUnique(p: Plane, lo: int, hi: int, a: Box, b: Box)
    requires Rgb(p) && lo < hi && Tight(p, lo, hi, a) && Tight(p, lo, hi, b)
    ensures a == b
  {
  }

  /** The darkest pixel is ink, so an image that is not flat has a tight box. */
  lemma DarkestIsInk(p: Plane, lo: int, hi: int, y: nat, x: nat)
    requires Rgb(p) && lo < hi && y < p.h && x < p.w && LumaAt(p, y, x) == lo
    ensures (y, x) in InkBefore(p, lo, hi, p.h, 0)
  {
  }

  /** The part of `p` in the box. */
  function Cropped(p: Plane, b: Box): (r: Plane)
    requires Rgb(p) && b.Inside(p)
    ensures Rgb(r) && r.w == b.W() && r.h == b.H()
    ensures forall y: nat, x: nat, c: nat :: Planes.Inside(r, y, x, c) ==>
              At(r, y, x, c) == At(p, b.y0 + y, b.x0 + x, c)
  {
    Generate(b.W(), b.H(), 3,
             (y: nat, x: nat, c: nat) requires y < b.H() && x < b.W() && c < 3 => At(p, b.y0 + y, b.x0 + x, c))
  }

  /** The crop of an image: itself when it is flat, else its ink. */
  ghost predicate IsCrop(p: Plane, r: Plane)
    requires Rgb(p)
  {
    if exists lo, hi :: lo < hi && Range(p, lo, hi)
    then exists lo, hi, b :: lo < hi && Range(p, lo, hi) && Tight(p, lo, hi, b) && r == Cropped(p, b)
    else r == p
  }

  // ----- the loops of the crop -----

  const USIZE_MAX := 0xFFFF_FFFF_FFFF_FFFF

  lemma PixelInside(p: Plane, y: nat, x: nat)
    requires y < p.h && x < p.w
    ensures y * p.w + x < p.w * p.h
  {
    TimesBelow(y, p.h, p.w);
    assert p.h * p.w == p.w * p.h;
  }

  function LumaOf(p: Plane, i: nat): int
    requires Rgb(p) && i < p.w * p.h
  {
    PilLuma(p.data[i * 3], p.data[i * 3 + 1], p.data[i * 3 + 2])
  }

  ghost predicate IsLuma(p: Plane, luma: seq<int>)
    requires Rgb(p)
  {
    |luma| == p.w * p.h && forall i :: 0 <= i < |luma| ==> luma[i] == LumaOf(p, i)
  }

  lemma LumaOfPixel(p: Plane, y: nat, x: nat)
    requires Rgb(p) && y < p.h && x < p.w
    ensures y * p.w + x < p.w * p.h && LumaAt(p, y, x) == LumaOf(p, y * p.w + x)
  {
    PixelInside(p, y, x);
  }

  method LumaPlane(p: Plane) returns (luma: seq<int>)
    requires Rgb(p)
    ensures IsLuma(p, luma)
  {
    var a := new int[p.w * p.h](_ => 0);
    for i := 0 to a.Length
      invariant forall j :: 0 <= j < i ==> a[j] == LumaOf(p, j)
    {
      a[i] := PilLuma(p.data[i * 3], p.data[i * 3 + 1], p.data[i * 3 + 2]);
    }
    luma := a[..];
  }

  /** Smallest and largest value, 0 when there is none. */
  method Extremes(s: seq<int>) returns (lo: int, hi: int)
    ensures s == [] ==> lo == hi == 0
    ensures s != [] ==> lo in s && hi in s && forall i :: 0 <= i < |s| ==> lo <= s[i] <= hi
  {
    if s == [] {
      return 0, 0;
    }
    lo, hi := s[0], s[0];
    for i := 1 to |s|
      invariant lo in s && hi in s && forall j :: 0 <= j < i ==> lo <= s[j] <= hi
    {
      if s[i] < lo {
        lo := s[i];
      }
      if s[i] > hi {
        hi := s[i];
      }
    }
  }

  /** The running bounds of the pixels seen so far. */
  ghost predicate Running(pixels: set<(nat, nat)>, x0: nat, y0: nat, x1: nat, y1: nat) {
    if x0 == USIZE_MAX then y0 == USIZE_MAX && x1 == 0 && y1 == 0 && pixels == {}
    else Bounds(pixels, Box(x0, y0, x1, y1))
  }

  /** Widens the bounds to take in one pixel. */
  method Widen(x0: nat, y0: nat, x1: nat, y1: nat, y: nat, x: nat, ghost pixels: set<(nat, nat)>)
    returns (a0: nat, b0: nat, a1: nat, b1: nat)
    requires Running(pixels, x0, y0, x1, y1) && x < USIZE_MAX && y < USIZE_MAX
    ensures Running(pixels + {(y, x)}, a0, b0, a1, b1)
  {
    a0, b0, a1, b1 := x0, y0, x1, y1;
    if x < x0 {
      a0 := x;
    }
    if y < y0 {
      b0 := y;
    }
    if x > x1 {
      a1 := x;
    }
    if y > y1 {
      b1 := y;
    }
    ghost var more := pixels + {(y, x)};
    assert (y, x) in more;
    assert forall q :: q in pixels ==> q in more;
  }

  lemma OneMorePixel(p: Plane, lo: int, hi: int, row: nat, col: nat)
    requires Rgb(p) && lo < hi && row < p.h && col < p.w
    ensures InkBefore(p, lo, hi, row, col + 1)
         == InkBefore(p, lo, hi, row, col) + if Ink(p, lo, hi, row, col) then {(row, col)} else {}
  {
  }

  lemma OneMoreRow(p: Plane, lo: int, hi: int, row: nat)
    requires Rgb(p) && lo < hi
    ensures InkBefore(p, lo, hi, row + 1, 0) == InkBefore(p, lo, hi, row, p.w)
  {
  }

  lemma RunningIsTight(p: Plane, lo: int, hi: int, x0: nat, y0: nat, x1: nat, y1: nat)
    requires Rgb(p) && lo < hi && InkBefore(p, lo, hi, p.h, 0) != {}
    requires Running(InkBefore(p, lo, hi, p.h, 0), x0, y0, x1, y1)
    ensures x0 != USIZE_MAX && Tight(p, lo, hi, Box(x0, y0, x1, y1))
  {
  }

  /** One pixel of the scan. */
  method Scan(p: Plane, luma: int, lo: int, hi: int, y: nat, x: nat, x0: nat, y0: nat, x1: nat, y1: nat)
    returns (a0: nat, b0: nat, a1: nat, b1: nat)
    requires Rgb(p) && lo < hi && y < p.h <= USIZE_MAX && x < p.w <= USIZE_MAX && luma == LumaAt(p, y, x)
    requires Running(InkBefore(p, lo, hi, y, x), x0, y0, x1, y1)
    ensures Running(InkBefore(p, lo, hi, y, x + 1), a0, b0, a1, b1)
  {
    OneMorePixel(p, lo, hi, y, x);
    a0, b0, a1, b1 := x0, y0, x1, y1;
    if IsInk(luma, lo, hi) {
      a0, b0, a1, b1 := Widen(x0, y0, x1, y1, y, x, InkBefore(p, lo, hi, y, x));
    }
  }

  method PixelLuma(p: Plane, luma: seq<int>, y: nat, x: nat) returns (l: int)
    requires Rgb(p) && y < p.h && x < p.w
    requires IsLuma(p, luma)
    ensures l == LumaAt(p, y, x)
  {
    LumaOfPixel(p, y, x);
    l := luma[y * p.w + x];
  }

  method ScanRow(p: Plane, luma: seq<int>, lo: int, hi: int, y: nat, x0: nat, y0: nat, x1: nat, y1: nat)
    returns (a0: nat, b0: nat, a1: nat, b1: nat)
    requires Rgb(p) && IsLuma(p, luma) && lo < hi && y < p.h <= USIZE_MAX && p.w <= USIZE_MAX
    requires Running(InkBefore(p, lo, hi, y, 0), x0, y0, x1, y1)
    ensures Running(InkBefore(p, lo, hi, y, p.w), a0, b0, a1, b1)
  {
    a0, b0, a1, b1 := x0, y0, x1, y1;
    for x := 0 to p.w
      invariant Running(InkBefore(p, lo, hi, y, x), a0, b0, a1, b1)
    {
      var l := PixelLuma(p, luma, y, x);
      a0, b0, a1, b1 := Scan(p, l, lo, hi, y, x, a0, b0, a1, b1);
    }
  }

  method FindBox(p: Plane, luma: seq<int>, lo: int, hi: int) returns (b: Box)
    requires Rgb(p) && lo < hi && p.w <= USIZE_MAX && p.h <= USIZE_MAX
    requires IsLuma(p, luma)
    requires InkBefore(p, lo, hi, p.h, 0) != {}
    ensures Tight(p, lo, hi, b)
  {
    var x0: nat, y0: nat, x1: nat, y1: nat := USIZE_MAX, USIZE_MAX, 0, 0;
    for y := 0 to p.h
      invariant Running(InkBefore(p, lo, hi, y, 0), x0, y0, x1, y1)
    {
      x0, y0, x1, y1 := ScanRow(p, luma, lo, hi, y, x0, y0, x1, y1);
      OneMoreRow(p, lo, hi, y);
    }
    RunningIsTight(p, lo, hi, x0, y0, x1, y1);
    b := Box(x0, y0, x1, y1);
  }

  /** Copies the box row by row. */
  method CopyBox(p: Plane, b: Box) returns (out: Plane)
    requires Rgb(p) && b.Inside(p)
    ensures out == Cropped(p, b)
  {
    ghost var r := Cropped(p, b);
    var cw, ch := b.W(), b.H();
    var data := new int[cw * ch * 3](_ => 0);
    for y := 0 to ch
      invariant Holds(data[..], r, Slot(cw, 3, y, 0, 0))
    {
      for x := 0 to cw
        invariant Holds(data[..], r, Slot(cw, 3, y, x, 0))
      {
        for c := 0 to 3
          invariant Holds(data[..], r, Slot(cw, 3, y, x, c))
        {
          SlotInside(p.w, p.h, 3, b.y0 + y, b.x0 + x, c);
          PutSample(data, r, cw, 3, y, x, c, p.data[((b.y0 + y) * p.w + (b.x0 + x)) * 3 + c]);
        }
        SlotNext(cw, 3, y, x);
      }
      SlotNext(cw, 3, y, 0);
    }
    RasterDone(data[..], r);
    out := Plane(cw, ch, 3, data[..]);
  }

  lemma PixelAt(w: nat, h: nat, i: nat) returns (y: nat, x: nat)
    requires i < w * h
    ensures y < h && x < w && i == y * w + x
  {
    assert w * h == h * w;
    QuotientInside(w, h, i);
    y, x := i / w, i % w;
  }

  lemma ExtremesAreRange(p: Plane, luma: seq<int>, lo: int, hi: int)
    requires Rgb(p) && IsLuma(p, luma)
    requires luma != [] && lo in luma && hi in luma && forall i :: 0 <= i < |luma| ==> lo <= luma[i] <= hi
    ensures Range(p, lo, hi)
  {
    forall y: nat, x: nat | y < p.h && x < p.w ensures lo <= LumaAt(p, y, x) <= hi {
      LumaOfPixel(p, y, x);
      assert luma[y * p.w + x] == LumaAt(p, y, x);
    }
    LumaReached(p, luma, lo);
    LumaReached(p, luma, hi);
  }

  lemma LumaReached(p: Plane, luma: seq<int>, v: int)
    requires Rgb(p) && IsLuma(p, luma)
    requires v in luma
    ensures exists y: nat, x: nat :: y < p.h && x < p.w && LumaAt(p, y, x) == v
  {
    var i :| 0 <= i < |luma| && luma[i] == v;
    var y, x := PixelAt(p.w, p.h, i);
    LumaOfPixel(p, y, x);
    assert LumaAt(p, y, x) == v;
  }

  lemma RangeIsUnique(p: Plane, lo: int, hi: int, a: int, b: int)
    requires Rgb(p) && Range(p, lo, hi) && Range(p, a, b)
    ensures lo == a && hi == b
  {
  }

  method CropMargin(p: Plane) returns (out: Plane)
    requires Rgb(p) && p.w <= USIZE_MAX && p.h <= USIZE_MAX
    ensures IsCrop(p, out)
  {
    var luma := LumaPlane(p);
    var lo, hi := Extremes(luma);
    if luma != [] {
      ExtremesAreRange(p, luma, lo, hi);
    }
    if hi == lo {
      if exists a, b :: a < b && Range(p, a, b) {
        FlatHasNoRange(p, luma, lo);
      }
      return p;
    }
    ghost var y: nat, x: nat :| y < p.h && x < p.w && LumaAt(p, y, x) == lo;
    DarkestIsInk(p, lo, hi, y, x);
    var b := FindBox(p, luma, lo, hi);
    out := CopyBox(p, b);
  }

  lemma FlatHasNoRange(p: Plane, luma: seq<int>, v: int)
    requires Rgb(p) && |luma| == p.w * p.h
    requires luma != [] ==> Range(p, v, v)
    ensures forall a, b :: a < b ==> !Range(p, a, b)
  {
    forall a, b | a < b ensures !Range(p, a, b) {
      if Range(p, a, b) {
        var y: nat, x: nat :| y < p.h && x < p.w && LumaAt(p, y, x) == a;
        PixelInside(p, y, x);
        RangeIsUnique(p, v, v, a, b);
      }
    }
  }

  // ----- centring -----

  function Margin(size: nat, n: nat): nat
    requires n <= size
  {
    (size - n) / 2
  }

  /** The black canvas after the first `rows` rows of `p` are in its middle. */
  function CanvasRows(p: Plane, size: nat, rows: nat): (r: Plane)
    requires Rgb(p) && p.w <= size && rows <= p.h <= size
    ensures Rgb(r) && r.w == size && r.h == size
    ensures forall y: nat, x: nat, c: nat :: Planes.Inside(r, y, x, c) ==>
              At(r, y, x, c) == CanvasAt(p, size, rows, y, x, c)
  {
    Generate(size, size, 3,
             (y: nat, x: nat, c: nat) requires y < size && x < size && c < 3 => CanvasAt(p, size, rows, y, x, c))
  }

  function CanvasAt(p: Plane, size: nat, rows: nat, y: nat, x: nat, c: nat): int
    requires Rgb(p) && p.w <= size && rows <= p.h <= size && c < 3
  {
    var top, left := Margin(size, p.h), Margin(size, p.w);
    if top <= y < top + rows && left <= x < left + p.w then At(p, y - top, x - left, c) else 0
  }

  /** The image in the middle of the canvas, black around it. */
  function Centred(p: Plane, size: nat): Plane
    requires Rgb(p) && p.w <= size && p.h <= size
  {
    CanvasRows(p, size, p.h)
  }

  /** Outside the copied stretch, one more row changes nothing. */
  lemma RowOnly(p: Plane, size: nat, row: nat, i: nat)
    requires Rgb(p) && p.w <= size && row < p.h <= size
    requires i < |CanvasRows(p, size, row).data|
    ensures var from := Slot(size, 3, Margin(size, p.h) + row, Margin(size, p.w), 0);
            from <= i < from + p.w * 3 || CanvasRows(p, size, row + 1).data[i] == CanvasRows(p, size, row).data[i]
  {
    var before, after := CanvasRows(p, size, row), CanvasRows(p, size, row + 1);
    var y, x, c := PlaceOf(before, i);
    var top, left := Margin(size, p.h), Margin(size, p.w);
    assert At(before, y, x, c) == CanvasAt(p, size, row, y, x, c);
    assert At(after, y, x, c) == CanvasAt(p, size, row + 1, y, x, c);
    if y == top + row && left <= x < left + p.w {
      assert Slot(size, 3, y, x, c) - Slot(size, 3, y, left, 0) == (x - left) * 3 + c;
    }
  }

  /** The copied stretch holds the row of the image. */
  lemma RowSample(p: Plane, size: nat, row: nat, j: nat)
    requires Rgb(p) && p.w <= size && row < p.h <= size && j < p.w * 3
    ensures var from := Slot(size, 3, Margin(size, p.h) + row, Margin(size, p.w), 0);
            && from + j < |CanvasRows(p, size, row + 1).data| && Slot(p.w, 3, row, 0, 0) + j < |p.data|
            && CanvasRows(p, size, row + 1).data[from + j] == p.data[Slot(p.w, 3, row, 0, 0) + j]
  {
    var after := CanvasRows(p, size, row + 1);
    var top, left, x, c := Margin(size, p.h), Margin(size, p.w), j / 3, j % 3;
    SlotInside(p.w, p.h, 3, row, x, c);
    SlotInside(size, size, 3, top + row, left + x, c);
    assert At(after, top + row, left + x, c) == CanvasAt(p, size, row + 1, top + row, left + x, c) == At(p, row, x, c);
  }

  method CopyRow(p: Plane, size: nat, row: nat, out: array<int>)
    requires Rgb(p) && p.w <= size && row < p.h <= size && out[..] == CanvasRows(p, size, row).data
    modifies out
    ensures out[..] == CanvasRows(p, size, row + 1).data
  {
    ghost var before, after := CanvasRows(p, size, row).data, CanvasRows(p, size, row + 1).data;
    var s := Slot(p.w, 3, row, 0, 0);
    var d := Slot(size, 3, Margin(size, p.h) + row, Margin(size, p.w), 0);
    assert |before| == |after| == out.Length;
    for j := 0 to p.w * 3
      invariant forall i :: 0 <= i < out.Length ==> out[i] == if d <= i < d + j then after[i] else before[i]
    {
      RowSample(p, size, row, j);
      out[d + j] := p.data[s + j];
    }
    forall i | 0 <= i < out.Length ensures out[i] == after[i] {
      RowOnly(p, size, row, i);
    }
  }

  method PadCenter(p: Plane, size: nat) returns (out: Plane)
    requires Rgb(p) && p.w <= size && p.h <= size
    ensures out == Centred(p, size)
  {
    var data := new int[size * size * 3](_ => 0);
    EmptyCanvas(p, size);
    for y := 0 to p.h
      invariant data[..] == CanvasRows(p, size, y).data
    {
      CopyRow(p, size, y, data);
    }
    out := Plane(size, size, 3, data[..]);
  }

  lemma EmptyCanvas(p: Plane, size: nat)
    requires Rgb(p) && p.w <= size && p.h <= size
    ensures forall i :: 0 <= i < |CanvasRows(p, size, 0).data| ==> CanvasRows(p, size, 0).data[i] == 0
  {
    var r := CanvasRows(p, size, 0);
    forall i | 0 <= i < |r.data| ensures r.data[i] == 0 {
      var y, x, c := PlaceOf(r, i);
      assert At(r, y, x, c) == CanvasAt(p, size, 0, y, x, c);
    }
  }

  // ----- the whole transform -----

  datatype Refusal = BadBuffer | BadAspect

  /** The pixel count and the buffer of a raw crop. */
  predicate BufferOk(w: nat, h: nat, data: seq<int>) {
    w > 0 && h > 0 && w * h <= MAX_PIXELS && |data| == w * h * 3
  }

  /** An accepted crop with its short side at 384. */
  function ShortSided(crop: Plane): (p: Plane)
    requires Rgb(crop) && Nonempty(crop) && RustAccepts(crop.w, crop.h)
    ensures Rgb(p) && Nonempty(p) && (p.w, p.h) == ShortSideSize(crop.w, crop.h, SIDE)
  {
    AcceptedResize(crop.w, crop.h);
    var (ow, oh) := ShortSideSize(crop.w, crop.h, SIDE);
    Resized(crop, ow, oh, Bilinear, None)
  }

  /** And with both sides within 384. */
  function Thumbed(p: Plane): (t: Plane)
    requires Rgb(p) && Nonempty(p)
    ensures Rgb(t) && Nonempty(t) && t.w <= SIDE && t.h <= SIDE
  {
    ThumbnailFits(p.w, p.h, SIDE);
    var (tw, th) := ThumbnailSize(p.w, p.h, SIDE);
    Resized(p, tw, th, Bicubic, Some(2.0))
  }

  /** The canvas of an accepted crop. */
  function Transformed(crop: Plane): (canvas: Plane)
    requires Rgb(crop) && Nonempty(crop) && RustAccepts(crop.w, crop.h)
    ensures Rgb(canvas) && canvas.w == SIDE && canvas.h == SIDE
  {
    Centred(Thumbed(ShortSided(crop)), SIDE)
  }

  const MEAN := 202.2405
  const INV_STD := 0.022563687

  function Normalized(g: int): real {
    (g as real - MEAN) * INV_STD
  }

  /** The constants are those of normalizing by mean 0.7931 and deviation 0.1738 on the
   *  scale of 0 to 1, up to a millionth. */
  lemma NormalizedIsReference(g: int)
    requires Byte(g)
    ensures var reference := (g as real / 255.0 - 0.7931) / 0.1738;
            -0.000001 <= Normalized(g) - reference <= 0.000001
  {
    var x := g as real / 255.0;
    var reference := (x - 0.7931) / 0.1738;
    assert reference * 0.1738 == x - 0.7931;
    assert x * 255.0 == g as real;
  }

  function GreyAt(p: Plane, i: nat): int
    requires Rgb(p) && i < p.w * p.h
  {
    CvLuma(p.data[i * 3], p.data[i * 3 + 1], p.data[i * 3 + 2])
  }

  function Greys(p: Plane): (s: seq<real>)
    requires Rgb(p)
    ensures |s| == p.w * p.h && forall i :: 0 <= i < |s| ==> s[i] == Normalized(GreyAt(p, i))
  {
    seq(p.w * p.h, i requires 0 <= i < p.w * p.h => Normalized(GreyAt(p, i)))
  }

  /** Three equal channels of normalized grey levels. */
  ghost predicate IsTensor(canvas: Plane, t: seq<real>)
    requires Rgb(canvas)
  {
    t == Greys(canvas) + Greys(canvas) + Greys(canvas)
  }

  method Channels(canvas: Plane) returns (t: seq<real>)
    requires Rgb(canvas)
    ensures IsTensor(canvas, t)
  {
    var n := canvas.w * canvas.h;
    var chan := new real[n](_ => 0.0);
    for i := 0 to n
      invariant forall j :: 0 <= j < i ==> chan[j] == Normalized(GreyAt(canvas, j))
    {
      var g := CvLuma(canvas.data[i * 3], canvas.data[i * 3 + 1], canvas.data[i * 3 + 2]);
      chan[i] := (g as real - MEAN) * INV_STD;
    }
    assert chan[..] == Greys(canvas);
    t := chan[..] + chan[..] + chan[..];
  }

  lemma CropIsNonempty(p: Plane, crop: Plane)
    requires Rgb(p) && Nonempty(p) && IsCrop(p, crop)
    ensures Rgb(crop) && Nonempty(crop) && crop.w <= p.w && crop.h <= p.h
  {
  }

  /** Exactly the sound buffers whose crop the Python guard also accepts are transformed. */
  method Preprocess(w: nat, h: nat, data: seq<int>) returns (r: Result<seq<real>, Refusal>)
    requires w <= USIZE_MAX && h <= USIZE_MAX
    ensures !BufferOk(w, h, data) ==> r == Failure(BadBuffer)
    ensures BufferOk(w, h, data) ==>
              exists crop ::
                && IsCrop(Plane(w, h, 3, data), crop) && Rgb(crop) && Nonempty(crop)
                && (r.Success? <==> PythonAccepts(crop.w, crop.h))
                && (r.Success? ==> RustAccepts(crop.w, crop.h) && IsTensor(Transformed(crop), r.value))
                && (r.Failure? ==> r == Failure(BadAspect))
  {
    if w == 0 || h == 0 || w * h > MAX_PIXELS || |data| != w * h * 3 {
      return Failure(BadBuffer);
    }
    var rgb := Plane(w, h, 3, data);
    var crop := CropMargin(rgb);
    CropIsNonempty(rgb, crop);
    GuardsAgree(crop.w, crop.h);
    var long := (if crop.w > crop.h then crop.w else crop.h) * SIDE / (if crop.w < crop.h then crop.w else crop.h);
    if long > MAX_PIXELS / SIDE {
      return Failure(BadAspect);
    }
    AcceptedResize(crop.w, crop.h);
    var scaled := ResizeShortSide(crop, SIDE);
    ThumbnailFits(scaled.w, scaled.h, SIDE);
    var thumb := Thumbnail(scaled, SIDE);
    var canvas := PadCenter(thumb, SIDE);
    assert canvas == Transformed(crop);
    var t := Channels(canvas);
    r := Success(t);
  }
}
