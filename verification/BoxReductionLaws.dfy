/** Which pixels the box reduction of crates/formula-texo/src/resample.rs adds up. */
module BoxReductionLaws {
  import opened Planes
  import opened BoxReduction

  // ----- the blocks -----

  /** The block of `n` places at `i * k` holds exactly the places whose quotient is `i`. */
  lemma PlacesOfBlock(end: nat, k: nat, i: nat, n: nat, place: nat)
    requires k > 0 && i * k < end && n == Least(k, end - i * k) && place < end
    ensures i * k <= place < i * k + n <==> place / k == i
  {
    Euclid(place, k);
    var q := place / k;
    assert q * k == k * q;
    TimesBelow(q, i, k);
    TimesBelow(i, q, k);
  }

  lemma QuotientIsBlock(end: nat, k: nat, place: nat)
    requires k > 0 && place < end
    ensures place / k < CeilDiv(end, k)
  {
    var m := end + k - 1;
    Euclid(place, k);
    Euclid(m, k);
    TimesBelow(m / k, place / k + 1, k);
    assert (place / k + 1) * k == k * (place / k) + k;
    assert m / k * k == k * (m / k);
  }

  /** The rows and the columns are cut into blocks of `fy` and `fx`, and each pixel lies in
   *  the one block its coordinates divide to. */
  lemma BlocksTile(src: Plane, fx: nat, fy: nat, py: nat, px: nat)
    requires fx > 0 && fy > 0 && py < src.h && px < src.w
    ensures py / fy < CeilDiv(src.h, fy) && px / fx < CeilDiv(src.w, fx)
    ensures forall y: nat :: y < CeilDiv(src.h, fy) ==>
              (y * fy <= py < y * fy + BlockRows(src, fy, y) <==> y == py / fy)
    ensures forall x: nat :: x < CeilDiv(src.w, fx) ==>
              (x * fx <= px < x * fx + BlockColumns(src, fx, x) <==> x == px / fx)
  {
    QuotientIsBlock(src.h, fy, py);
    QuotientIsBlock(src.w, fx, px);
    forall y: nat | y < CeilDiv(src.h, fy)
      ensures y * fy <= py < y * fy + BlockRows(src, fy, y) <==> y == py / fy
    {
      BlockInside(src.h, fy, y);
      PlacesOfBlock(src.h, fy, y, BlockRows(src, fy, y), py);
    }
    forall x: nat | x < CeilDiv(src.w, fx)
      ensures x * fx <= px < x * fx + BlockColumns(src, fx, x) <==> x == px / fx
    {
      BlockInside(src.w, fx, x);
      PlacesOfBlock(src.w, fx, x, BlockColumns(src, fx, x), px);
    }
  }

  // ----- what a pixel adds -----

  /** Two planes of one shape that differ in one sample at most. */
  ghost predicate DifferAt(src: Plane, other: Plane, py: nat, px: nat, b: nat, step: int) {
    && src.Valid() && other.Valid() && (other.w, other.h, other.c) == (src.w, src.h, src.c)
    && Inside(src, py, px, b)
    && forall y: nat, x: nat :: Inside(src, y, x, b) ==>
         At(other, y, x, b) == At(src, y, x, b) + (if y == py && x == px then step else 0)
  }

  lemma {:induction false} RowSumMoves(src: Plane, other: Plane, py: nat, px: nat, b: nat, step: int,
                                       y: nat, x: nat, xs: nat)
    requires DifferAt(src, other, py, px, b, step) && y < src.h && x + xs <= src.w
    ensures RowSum(other, y, x, xs, b) == RowSum(src, y, x, xs, b)
                                          + (if y == py && x <= px < x + xs then step else 0)
  {
    if xs > 0 {
      RowSumMoves(src, other, py, px, b, step, y, x, xs - 1);
      assert Inside(src, y, x + xs - 1, b);
    }
  }

  lemma {:induction false} BlockSumMoves(src: Plane, other: Plane, py: nat, px: nat, b: nat, step: int,
                                         y: nat, ys: nat, x: nat, xs: nat)
    requires DifferAt(src, other, py, px, b, step) && y + ys <= src.h && x + xs <= src.w
    ensures BlockSum(other, y, ys, x, xs, b) == BlockSum(src, y, ys, x, xs, b)
                                                + (if y <= py < y + ys && x <= px < x + xs then step else 0)
  {
    if ys > 0 {
      BlockSumMoves(src, other, py, px, b, step, y, ys - 1, x, xs);
      RowSumMoves(src, other, py, px, b, step, y + ys - 1, x, xs);
    }
  }

  /** A pixel that grows by some amount makes the sum of the block it lies in grow by that
   *  amount, and no other. An all-zero channel sums up to zero, so this says that the sum
   *  of a block counts each of its pixels once and no pixel outside it. */
  lemma EachPixelCountsOnce(src: Plane, other: Plane, fx: nat, fy: nat, py: nat, px: nat, b: nat, step: int,
                            y: nat, x: nat)
    requires DifferAt(src, other, py, px, b, step) && fx > 0 && fy > 0
    requires y < CeilDiv(src.h, fy) && x < CeilDiv(src.w, fx)
    ensures SumAt(other, fx, fy, y, x, b) == SumAt(src, fx, fy, y, x, b)
                                             + (if y == py / fy && x == px / fx then step else 0)
  {
    BlocksTile(src, fx, fy, py, px);
    BlockSumMoves(src, other, py, px, b, step, y * fy, BlockRows(src, fy, y), x * fx, BlockColumns(src, fx, x));
  }

  lemma BlankSumsToZero(src: Plane, fx: nat, fy: nat, y: nat, x: nat, b: nat)
    requires src.Valid() && fx > 0 && fy > 0 && b < src.c && Flat(src, b, 0)
    requires y < CeilDiv(src.h, fy) && x < CeilDiv(src.w, fx)
    ensures SumAt(src, fx, fy, y, x, b) == 0
  {
    SumAtBounds(src, fx, fy, y, x, b, 0, 0);
  }
}
