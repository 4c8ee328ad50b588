/** Interleaved 8-bit planes of crates/formula-texo/src/resample.rs. */
module Planes {
  datatype Plane = Plane(w: nat, h: nat, c: nat, data: seq<int>)
  {
    predicate Valid() {
      |data| == w * h * c
    }
  }

  predicate Inside(p: Plane, y: int, x: int, b: int) {
    0 <= y < p.h && 0 <= x < p.w && 0 <= b < p.c
  }

  /** Where a sample of a row-major plane of `w` pixels a row is stored. */
  function Slot(w: nat, c: nat, y: nat, x: nat, b: nat): nat {
    (y * w + x) * c + b
  }

  lemma TimesUpTo(a: nat, b: nat, k: nat)
    requires a <= b
    ensures a * k <= b * k
  {
  }

  lemma SlotInside(w: nat, h: nat, c: nat, y: nat, x: nat, b: nat)
    requires y < h && x < w && b < c
    ensures Slot(w, c, y, x, b) < w * h * c
  {
    TimesUpTo(y + 1, h, w);
    TimesUpTo(y * w + x + 1, h * w, c);
    assert (y + 1) * w == y * w + w;
    assert (y * w + x + 1) * c == (y * w + x) * c + c;
    assert h * w * c == w * h * c;
  }

  lemma Division(k: nat, q: nat, r: nat)
    requires r < k
    ensures (q * k + r) / k == q && (q * k + r) % k == r
  {
    var v := q * k + r;
    assert v == v / k * k + v % k;
    TimesBelow(v / k, q, k);
    TimesBelow(q, v / k, k);
  }

  lemma TimesBelow(a: nat, b: nat, k: nat)
    ensures a < b ==> a * k + k <= b * k
  {
    if a < b {
      TimesUpTo(a + 1, b, k);
      assert (a + 1) * k == a * k + k;
    }
  }

  lemma QuotientInside(k: nat, n: nat, i: nat)
    requires i < n * k
    ensures k > 0 && i / k < n && i == i / k * k + i % k
  {
    if i / k >= n {
      TimesUpTo(n, i / k, k);
    }
  }

  /** Every stored sample belongs to a pixel. */
  lemma SlotOnto(w: nat, h: nat, c: nat, i: nat)
    requires i < w * h * c
    ensures w > 0 && c > 0 && 0 <= i / c / w < h && 0 <= i / c % w < w && 0 <= i % c < c
    ensures Slot(w, c, i / c / w, i / c % w, i % c) == i
  {
    QuotientInside(c, w * h, i);
    assert w * h == h * w;
    QuotientInside(w, h, i / c);
  }

  lemma SlotPlace(w: nat, c: nat, y: nat, x: nat, b: nat)
    requires x < w && b < c
    ensures Slot(w, c, y, x, b) / c / w == y && Slot(w, c, y, x, b) / c % w == x && Slot(w, c, y, x, b) % c == b
  {
    Division(c, y * w + x, b);
    Division(w, y, x);
  }

  lemma SlotNext(w: nat, c: nat, y: nat, x: nat)
    ensures Slot(w, c, y, x, c) == Slot(w, c, y, x + 1, 0)
    ensures Slot(w, c, y, w, 0) == Slot(w, c, y + 1, 0, 0)
  {
    assert (y * w + x + 1) * c == (y * w + x) * c + c;
    assert (y + 1) * w == y * w + w;
  }

  function At(p: Plane, y: nat, x: nat, b: nat): int
    requires p.Valid() && Inside(p, y, x, b)
  {
    SlotInside(p.w, p.h, p.c, y, x, b);
    p.data[Slot(p.w, p.c, y, x, b)]
  }

  lemma SamePlane(p: Plane, q: Plane)
    requires p.Valid() && q.Valid() && p.w == q.w && p.h == q.h && p.c == q.c
    requires forall y: nat, x: nat, b: nat :: Inside(p, y, x, b) ==> At(p, y, x, b) == At(q, y, x, b)
    ensures p == q
  {
    forall i | 0 <= i < |p.data| ensures p.data[i] == q.data[i] {
      var y, x, b := PlaceOf(p, i);
      assert At(p, y, x, b) == At(q, y, x, b);
    }
    assert p.data == q.data;
  }

  lemma PlaceOf(p: Plane, i: nat) returns (y: nat, x: nat, b: nat)
    requires p.Valid() && i < |p.data|
    ensures Inside(p, y, x, b) && Slot(p.w, p.c, y, x, b) == i
  {
    SlotOnto(p.w, p.h, p.c, i);
    y, x, b := i / p.c / p.w, i / p.c % p.w, i % p.c;
  }

  /** All samples of one channel are between `lo` and `hi`. */
  ghost predicate Within(p: Plane, b: nat, lo: int, hi: int)
    requires p.Valid()
  {
    forall y: nat, x: nat :: Inside(p, y, x, b) ==> lo <= At(p, y, x, b) <= hi
  }

  /** One channel has the same value everywhere. */
  ghost predicate Flat(p: Plane, b: nat, v: int)
    requires p.Valid()
  {
    Within(p, b, v, v)
  }

  /** The plane with the given sample at every place. */
  function Generate(w: nat, h: nat, c: nat, value: (nat, nat, nat) --> int): (p: Plane)
    requires forall y: nat, x: nat, b: nat :: y < h && x < w && b < c ==> value.requires(y, x, b)
    ensures p.Valid() && p.w == w && p.h == h && p.c == c
    ensures forall y: nat, x: nat, b: nat :: Inside(p, y, x, b) ==> At(p, y, x, b) == value(y, x, b)
  {
    var data := seq(w * h * c, i requires 0 <= i < w * h * c =>
                      (SlotOnto(w, h, c, i); value(i / c / w, i / c % w, i % c)));
    var p := Plane(w, h, c, data);
    assert forall y: nat, x: nat, b: nat :: Inside(p, y, x, b) ==> At(p, y, x, b) == value(y, x, b) by {
      forall y: nat, x: nat, b: nat | Inside(p, y, x, b) ensures At(p, y, x, b) == value(y, x, b) {
        SlotInside(w, h, c, y, x, b);
        SlotPlace(w, c, y, x, b);
      }
    }
    p
  }

  /** `buf` holds the first `end` samples of `p`. */
  ghost predicate Holds(buf: seq<int>, p: Plane, end: nat) {
    |buf| == |p.data| && forall i :: 0 <= i < end && i < |buf| ==> buf[i] == p.data[i]
  }

  /** A row slot, addressed as the horizontal pass does it. */
  lemma RowAddress(w: nat, ch: nat, y: nat, x: nat, b: nat)
    ensures y * w * ch + x * ch + b == Slot(w, ch, y, x, b)
  {
    assert (y * w + x) * ch == y * w * ch + x * ch;
  }

  /** Writes the next sample of the raster. */
  method PutSample(out: array<int>, ghost p: Plane, w: nat, ch: nat, yy: nat, xx: nat, b: nat, v: int)
    requires p.Valid() && p.w == w && p.c == ch && Inside(p, yy, xx, b) && v == At(p, yy, xx, b)
    requires Holds(out[..], p, Slot(w, ch, yy, xx, b))
    modifies out
    ensures Holds(out[..], p, Slot(w, ch, yy, xx, b + 1))
  {
    RowAddress(w, ch, yy, xx, b);
    SlotInside(w, p.h, ch, yy, xx, b);
    ghost var before := out[..];
    var i := yy * w * ch + xx * ch + b;
    out[i] := v;
    assert out[..] == before[i := v];
    assert Slot(w, ch, yy, xx, b + 1) == i + 1;
  }

  lemma RasterDone(buf: seq<int>, p: Plane)
    requires p.Valid() && Holds(buf, p, Slot(p.w, p.c, p.h, 0, 0))
    ensures buf == p.data
  {
    assert (p.h * p.w + 0) * p.c + 0 == p.w * p.h * p.c;
  }
}
