/** The box reduction of crates/formula-texo/src/resample.rs: block sums scaled by
 *  a truncated 24-bit reciprocal. */
module BoxReduction {
  import opened Planes

  const UNIT := 0x100_0000

  function Multiplier(n: nat): nat
    requires n > 0
  {
    UNIT / n
  }

  /** What the source stores for a block of `n` pixels of the given sum. */
  function Scaled(sum: nat, n: nat): nat
    requires n > 0
  {
    (sum + n / 2) * Multiplier(n) / UNIT
  }

  /** The rounded average. */
  function Average(sum: nat, n: nat): nat
    requires n > 0
  {
    (sum + n / 2) / n
  }

  // ----- the truncated reciprocal -----

  lemma Euclid(a: nat, n: nat)
    requires n > 0
    ensures a == n * (a / n) + a % n && 0 <= a % n < n
  {
  }

  lemma TimesUp(a: int, b: int, k: int)
    requires a <= b && k >= 0
    ensures a * k <= b * k
  {
  }

  lemma CancelUp(a: int, b: int, k: int)
    requires a * k < b * k && k > 0
    ensures a < b
  {
    if a >= b { TimesUp(b, a, k); }
  }

  /** The scaled accumulator, `n` times over: what the truncation loses is
   *  `acc * (UNIT % n)`. */
  lemma Loss(acc: nat, n: nat)
    requires n > 0
    ensures n * (acc * Multiplier(n)) == acc * UNIT - acc * (UNIT % n)
  {
    Euclid(UNIT, n);
    assert n * (acc * Multiplier(n)) == acc * (n * Multiplier(n));
    assert acc * (UNIT - UNIT % n) == acc * UNIT - acc * (UNIT % n);
  }

  /** `acc` in units of `n`: the quotient is reached exactly when the remainder makes up
   *  for the loss. */
  lemma ReachesIff(acc: nat, n: nat, q: nat)
    requires n > 0
    ensures q <= acc * Multiplier(n) / UNIT <==> (acc - q * n) * UNIT >= acc * (UNIT % n)
  {
    var x := acc * Multiplier(n);
    Loss(acc, n);
    FloorReaches(x, q);
    assert (acc - q * n) * UNIT == acc * UNIT - n * (q * UNIT);
    assert q * UNIT <= x <==> n * (q * UNIT) <= n * x by {
      TimesBothWays(q * UNIT, x, n);
    }
  }

  lemma TimesBothWays(a: int, b: int, n: nat)
    requires n > 0
    ensures a <= b <==> n * a <= n * b
  {
    if a <= b { TimesUp(a, b, n); } else { TimesUp(b + 1, a, n); assert (b + 1) * n == b * n + n; }
  }

  lemma FloorReaches(x: nat, q: nat)
    ensures q <= x / UNIT <==> q * UNIT <= x
  {
  }

  /** The stored value never exceeds the rounded average, and equals it exactly when the
   *  remainder of the average makes up for the loss of the reciprocal. */
  lemma ExactIff(sum: nat, n: nat)
    requires n > 0
    ensures Scaled(sum, n) <= Average(sum, n)
    ensures Scaled(sum, n) == Average(sum, n) <==>
            (sum + n / 2) % n * UNIT >= (sum + n / 2) * (UNIT % n)
  {
    var acc := sum + n / 2;
    var q := Average(sum, n);
    Euclid(acc, n);
    ReachesIff(acc, n, q);
    ReachesIff(acc, n, q + 1);
    assert q * n == n * q && (q + 1) * n == q * n + n;
    NotReached(acc - (q + 1) * n, acc * (UNIT % n));
  }

  lemma NotReached(short: int, loss: int)
    requires short < 0 <= loss
    ensures short * UNIT < loss
  {
  }

  /** For blocks of at most 65536 bytes the stored value is the rounded average or one
   *  less, and a byte. */
  lemma WithinOne(sum: nat, n: nat)
    requires 1 <= n <= 65536 && sum <= 255 * n
    ensures Average(sum, n) - 1 <= Scaled(sum, n) <= Average(sum, n) <= 255
  {
    ExactIff(sum, n);
    AverageIsByte(sum, n);
    OneBelow(sum + n / 2, n, Average(sum, n));
  }

  lemma AverageIsByte(sum: nat, n: nat)
    requires n >= 1 && sum <= 255 * n
    ensures Average(sum, n) <= 255
  {
    var q := Average(sum, n);
    Euclid(sum + n / 2, n);
    assert q * n == n * q;
    CancelUp(q, 256, n);
  }

  lemma OneBelow(acc: nat, n: nat, q: nat)
    requires 1 <= n <= 65536 && acc <= 255 * n + n / 2 && q == acc / n
    ensures q - 1 <= acc * Multiplier(n) / UNIT
  {
    Euclid(acc, n);
    Euclid(UNIT, n);
    if q > 0 {
      ReachesIff(acc, n, q - 1);
      LossBelowUnit(acc, UNIT % n, n);
      Left(acc, n, q);
    }
  }

  /** Exactly when the stored value is at most one below the average, for every size. */
  lemma WithinOneIff(sum: nat, n: nat)
    requires n > 0 && Average(sum, n) > 0
    ensures Average(sum, n) - 1 <= Scaled(sum, n) <==>
              ((sum + n / 2) % n + n) * UNIT >= (sum + n / 2) * (UNIT % n)
  {
    var acc, q := sum + n / 2, Average(sum, n);
    Euclid(acc, n);
    ReachesIff(acc, n, q - 1);
    assert (q - 1) * n == n * q - n;
  }

  /** A block of 66053 pixels can lose two steps. */
  lemma LargeBlockCanLoseTwo()
    ensures Average(16810489, 66053) == 255 && Scaled(16810489, 66053) == 253
  {
    assert UNIT / 66053 == 253;
  }

  lemma Left(acc: nat, n: nat, q: nat)
    requires q > 0 && acc >= n * q
    ensures (acc - (q - 1) * n) * UNIT >= n * UNIT
  {
    assert (q - 1) * n == n * q - n;
  }

  lemma LossBelowUnit(acc: nat, r: nat, n: nat)
    requires n <= 65536 && acc <= 255 * n + n / 2 && r < n
    ensures acc * r <= n * UNIT
  {
    TimesUp(2 * acc, 511 * n, r);
    TimesUp(r, 65535, 511 * n);
    assert 2 * (acc * r) == 2 * acc * r;
    assert 511 * n * r == r * (511 * n);
    assert 65535 * (511 * n) == 33488385 * n;
  }

  /** Blocks of a power of two pixels average exactly. */
  lemma ExactForDivisors(sum: nat, n: nat)
    requires n > 0 && UNIT % n == 0
    ensures Scaled(sum, n) == Average(sum, n)
  {
    ExactIff(sum, n);
    Euclid(sum + n / 2, n);
  }

  // ----- flat blocks -----

  lemma FlatAverage(v: nat, n: nat)
    requires n > 0
    ensures Average(v * n, n) == v && (v * n + n / 2) % n == n / 2
  {
    Division(n, v, n / 2);
  }

  /** A flat block keeps its value exactly when half its size makes up for the loss. */
  lemma FlatBlockIff(v: nat, n: nat)
    requires n > 0
    ensures Scaled(v * n, n) == v <==> n / 2 * UNIT >= (v * n + n / 2) * (UNIT % n)
  {
    FlatAverage(v, n);
    ExactIff(v * n, n);
  }

  /** Every flat block of bytes of at most 32832 pixels keeps its value. */
  lemma FlatBlock(v: nat, n: nat)
    requires 1 <= n <= 32832 && v <= 255
    ensures Scaled(v * n, n) == v
  {
    FlatBlockIff(v, n);
    TimesUp(v, 255, n);
    Euclid(UNIT, n);
    EvenRemainder(n, UNIT / n, UNIT % n);
    FlatLoss(v * n + n / 2, UNIT % n, n);
  }

  lemma EvenRemainder(n: nat, k: nat, r: nat)
    requires UNIT == n * k + r
    ensures n % 2 == 0 ==> r % 2 == 0
  {
    if n % 2 == 0 {
      assert n * k == 2 * (n / 2 * k);
    }
  }

  lemma FlatLoss(acc: nat, r: nat, n: nat)
    requires 1 <= n <= 32832 && acc <= 255 * n + n / 2 && r < n && (n % 2 == 0 ==> r % 2 == 0)
    ensures acc * r <= n / 2 * UNIT
  {
    var half := n / 2;
    assert r <= 2 * half;
    TimesUp(r, 2 * half, acc);
    TimesUp(acc, 8388608, 2 * half);
    assert 2 * half * acc == acc * (2 * half);
    assert r * acc == acc * r;
  }

  /** A white block of 33157 pixels does not. */
  lemma FlatBlockCanLose()
    ensures Scaled(255 * 33157, 33157) == 254
  {
    assert UNIT / 33157 == 505;
  }

  // ----- planes -----

  function RowSum(src: Plane, y: nat, x: nat, xs: nat, b: nat): int
    requires src.Valid() && y < src.h && x + xs <= src.w && b < src.c
  {
    if xs == 0 then 0 else RowSum(src, y, x, xs - 1, b) + At(src, y, x + xs - 1, b)
  }

  /** The sum over the block of `ys` rows and `xs` columns at `(y, x)`. */
  function BlockSum(src: Plane, y: nat, ys: nat, x: nat, xs: nat, b: nat): int
    requires src.Valid() && y + ys <= src.h && x + xs <= src.w && b < src.c
  {
    if ys == 0 then 0 else BlockSum(src, y, ys - 1, x, xs, b) + RowSum(src, y + ys - 1, x, xs, b)
  }

  function CeilDiv(a: nat, k: nat): nat
    requires k > 0
  {
    (a + k - 1) / k
  }

  function Least(a: nat, b: nat): nat {
    if a < b then a else b
  }

  /** A block starts inside the plane, so its size is positive. */
  lemma BlockInside(n: nat, k: nat, i: nat)
    requires k > 0 && i < CeilDiv(n, k)
    ensures i * k < n
  {
    var m := n + k - 1;
    Euclid(m, k);
    TimesBelow(i, m / k, k);
    assert m / k * k == k * (m / k);
  }

  lemma {:induction false} RowSumBounds(src: Plane, y: nat, x: nat, xs: nat, b: nat, lo: nat, hi: nat)
    requires src.Valid() && y < src.h && x + xs <= src.w && b < src.c
    requires Within(src, b, lo, hi)
    ensures lo * xs <= RowSum(src, y, x, xs, b) <= hi * xs
  {
    if xs > 0 {
      RowSumBounds(src, y, x, xs - 1, b, lo, hi);
      assert Inside(src, y, x + xs - 1, b);
      assert lo * xs == lo * (xs - 1) + lo && hi * xs == hi * (xs - 1) + hi;
    }
  }

  lemma {:induction false} BlockSumBounds(src: Plane, y: nat, ys: nat, x: nat, xs: nat, b: nat, lo: nat, hi: nat)
    requires src.Valid() && y + ys <= src.h && x + xs <= src.w && b < src.c
    requires Within(src, b, lo, hi)
    ensures lo * (xs * ys) <= BlockSum(src, y, ys, x, xs, b) <= hi * (xs * ys)
  {
    if ys > 0 {
      BlockSumBounds(src, y, ys - 1, x, xs, b, lo, hi);
      RowSumBounds(src, y + ys - 1, x, xs, b, lo, hi);
      OneRowMore(lo, xs, ys);
      OneRowMore(hi, xs, ys);
    }
  }

  lemma OneRowMore(v: nat, xs: nat, ys: nat)
    requires ys > 0
    ensures v * (xs * ys) == v * (xs * (ys - 1)) + v * xs
  {
    assert xs * ys == xs * (ys - 1) + xs;
  }

  /** The pixels of the block that ends up at `(y, x)`: smaller at the trailing edges. */
  function BlockRows(src: Plane, fy: nat, y: nat): (n: nat)
    requires fy > 0 && y < CeilDiv(src.h, fy)
    ensures 0 < n <= fy && y * fy + n <= src.h
  {
    BlockInside(src.h, fy, y);
    Least(fy, src.h - y * fy)
  }

  function BlockColumns(src: Plane, fx: nat, x: nat): (n: nat)
    requires fx > 0 && x < CeilDiv(src.w, fx)
    ensures 0 < n <= fx && x * fx + n <= src.w
  {
    BlockInside(src.w, fx, x);
    Least(fx, src.w - x * fx)
  }

  function SumAt(src: Plane, fx: nat, fy: nat, y: nat, x: nat, b: nat): int
    requires src.Valid() && fx > 0 && fy > 0 && y < CeilDiv(src.h, fy) && x < CeilDiv(src.w, fx) && b < src.c
  {
    BlockSum(src, y * fy, BlockRows(src, fy, y), x * fx, BlockColumns(src, fx, x), b)
  }

  function SizeAt(src: Plane, fx: nat, fy: nat, y: nat, x: nat): (n: nat)
    requires fx > 0 && fy > 0 && y < CeilDiv(src.h, fy) && x < CeilDiv(src.w, fx)
    ensures 0 < n <= fx * fy
  {
    var xs, ys := BlockColumns(src, fx, x), BlockRows(src, fy, y);
    TimesUp(xs, fx, ys);
    TimesUp(ys, fy, fx);
    assert xs * ys > 0 && fy * fx == fx * fy && ys * fx == fx * ys;
    xs * ys
  }

  function ReducedAt(src: Plane, fx: nat, fy: nat, y: nat, x: nat, b: nat): int
    requires src.Valid() && fx > 0 && fy > 0 && y < CeilDiv(src.h, fy) && x < CeilDiv(src.w, fx) && b < src.c
  {
    var n := SizeAt(src, fx, fy, y, x);
    (SumAt(src, fx, fy, y, x, b) + n / 2) * Multiplier(n) / UNIT % 256
  }

  function Reduced(src: Plane, fx: nat, fy: nat): (p: Plane)
    requires src.Valid() && fx > 0 && fy > 0
    ensures p.Valid() && p.w == CeilDiv(src.w, fx) && p.h == CeilDiv(src.h, fy) && p.c == src.c
    ensures forall y: nat, x: nat, b: nat :: Inside(p, y, x, b) ==> At(p, y, x, b) == ReducedAt(src, fx, fy, y, x, b)
  {
    Generate(CeilDiv(src.w, fx), CeilDiv(src.h, fy), src.c,
             (y: nat, x: nat, b: nat) requires y < CeilDiv(src.h, fy) && x < CeilDiv(src.w, fx) && b < src.c =>
               ReducedAt(src, fx, fy, y, x, b))
  }

  lemma SumAtBounds(src: Plane, fx: nat, fy: nat, y: nat, x: nat, b: nat, lo: nat, hi: nat)
    requires src.Valid() && fx > 0 && fy > 0
    requires y < CeilDiv(src.h, fy) && x < CeilDiv(src.w, fx) && b < src.c
    requires Within(src, b, lo, hi)
    ensures lo * SizeAt(src, fx, fy, y, x) <= SumAt(src, fx, fy, y, x, b) <= hi * SizeAt(src, fx, fy, y, x)
  {
    BlockSumBounds(src, y * fy, BlockRows(src, fy, y), x * fx, BlockColumns(src, fx, x), b, lo, hi);
  }

  lemma StoredByte(v: nat)
    requires v <= 255
    ensures v % 256 == v
  {
  }

  /** Every reduced sample is the rounded average of its block or one less. */
  lemma ReducedIsAverage(src: Plane, fx: nat, fy: nat, y: nat, x: nat, b: nat)
    requires src.Valid() && fx > 0 && fy > 0 && y < CeilDiv(src.h, fy) && x < CeilDiv(src.w, fx)
    requires b < src.c && Within(src, b, 0, 255) && SizeAt(src, fx, fy, y, x) <= 65536
    ensures SumAt(src, fx, fy, y, x, b) >= 0
    ensures var average := Average(SumAt(src, fx, fy, y, x, b), SizeAt(src, fx, fy, y, x));
            average - 1 <= ReducedAt(src, fx, fy, y, x, b) <= average <= 255
  {
    SumAtBounds(src, fx, fy, y, x, b, 0, 255);
    StoredWithinOne(SumAt(src, fx, fy, y, x, b), SizeAt(src, fx, fy, y, x));
  }

  lemma StoredWithinOne(sum: nat, n: nat)
    requires 1 <= n <= 65536 && sum <= 255 * n
    ensures Average(sum, n) - 1 <= (sum + n / 2) * Multiplier(n) / UNIT % 256 <= Average(sum, n) <= 255
  {
    WithinOne(sum, n);
    StoredByte(Scaled(sum, n));
  }

  /** Reducing a flat channel keeps its value. */
  lemma FlatReduces(src: Plane, fx: nat, fy: nat, v: nat, y: nat, x: nat, b: nat)
    requires src.Valid() && fx > 0 && fy > 0 && y < CeilDiv(src.h, fy) && x < CeilDiv(src.w, fx)
    requires b < src.c && v <= 255 && Flat(src, b, v) && SizeAt(src, fx, fy, y, x) <= 32832
    ensures ReducedAt(src, fx, fy, y, x, b) == v
  {
    SumAtBounds(src, fx, fy, y, x, b, v, v);
    FlatBlock(v, SizeAt(src, fx, fy, y, x));
    StoredByte(v);
  }

  // ----- the loops -----

  /** Adds up one block, starting from the rounding term. */
  method AddBlock(src: Plane, amend: nat, y0: nat, ys: nat, x0: nat, xs: nat, b: nat) returns (acc: int)
    requires src.Valid() && y0 + ys <= src.h && x0 + xs <= src.w && b < src.c
    ensures acc == amend + BlockSum(src, y0, ys, x0, xs, b)
  {
    acc := amend;
    for y := 0 to ys
      invariant acc == amend + BlockSum(src, y0, y, x0, xs, b)
    {
      var row := (y0 + y) * src.w * src.c;
      for x := 0 to xs
        invariant acc == amend + BlockSum(src, y0, y, x0, xs, b) + RowSum(src, y0 + y, x0, x, b)
      {
        RowAddress(src.w, src.c, y0 + y, x0 + x, b);
        SlotInside(src.w, src.h, src.c, y0 + y, x0 + x, b);
        acc := acc + src.data[row + (x0 + x) * src.c + b];
      }
    }
  }

  method ReduceBlock(src: Plane, fx: nat, fy: nat, yy: nat, xx: nat, out: array<int>, ghost p: Plane)
    requires src.Valid() && fx > 0 && fy > 0 && p == Reduced(src, fx, fy) && yy < p.h && xx < p.w
    requires Holds(out[..], p, Slot(p.w, src.c, yy, xx, 0))
    modifies out
    ensures Holds(out[..], p, Slot(p.w, src.c, yy, xx + 1, 0))
  {
    var ow := CeilDiv(src.w, fx);
    var ys, xs := BlockRows(src, fy, yy), BlockColumns(src, fx, xx);
    var n := SizeAt(src, fx, fy, yy, xx);
    var amend, mult := n / 2, Multiplier(n);
    for b := 0 to src.c
      invariant Holds(out[..], p, Slot(ow, src.c, yy, xx, b))
    {
      var acc := AddBlock(src, amend, yy * fy, ys, xx * fx, xs, b);
      var v := acc * mult / UNIT % 256;
      assert v == ReducedAt(src, fx, fy, yy, xx, b) == At(p, yy, xx, b);
      PutSample(out, p, ow, src.c, yy, xx, b, v);
    }
    SlotNext(ow, src.c, yy, xx);
  }

  method Reduce(src: Plane, fx: nat, fy: nat) returns (out: Plane)
    requires src.Valid() && fx > 0 && fy > 0
    ensures out == if fx == 1 && fy == 1 then src else Reduced(src, fx, fy)
  {
    if fx == 1 && fy == 1 {
      return src;
    }
    var ow, oh := CeilDiv(src.w, fx), CeilDiv(src.h, fy);
    ghost var p := Reduced(src, fx, fy);
    var data := new int[ow * oh * src.c](_ => 0);
    for yy := 0 to oh
      invariant Holds(data[..], p, Slot(ow, src.c, yy, 0, 0))
    {
      for xx := 0 to ow
        invariant Holds(data[..], p, Slot(ow, src.c, yy, xx, 0))
      {
        ReduceBlock(src, fx, fy, yy, xx, data, p);
      }
      SlotNext(ow, src.c, yy, 0);
    }
    RasterDone(data[..], p);
    out := Plane(ow, oh, src.c, data[..]);
  }
}
