/** What the box arithmetic of crates/core/src/figure.rs decides, in terms of points, of
 *  least and greatest boxes, and of the numbers the source writes. */
module FigureLaws {
  import opened Wrappers
  import opened Figures
  import D = FigureDelivery

  // ----- points -----

  predicate Covers(b: Box, x: real, y: real) {
    b.left <= x <= b.right && b.top <= y <= b.bottom
  }

  /** A box contains a proper one exactly when it covers each of its points. */
  lemma ContainsIff(a: Box, b: Box)
    requires b.Valid()
    ensures a.Contains(b) <==> forall x: real, y: real :: Covers(b, x, y) ==> Covers(a, x, y)
  {
    if forall x: real, y: real :: Covers(b, x, y) ==> Covers(a, x, y) {
      assert Covers(b, b.left, b.top) && Covers(b, b.right, b.bottom);
      assert Covers(a, b.left, b.top) && Covers(a, b.right, b.bottom);
    }
  }

  /** The accepted pages: of two content boxes that are neither detached nor sparse, each
   *  has a point that the other does not cover. */
  lemma SeparateIff(bs: seq<Block>)
    requires forall k :: 0 <= k < |bs| ==> bs[k].bbox.Valid()
    ensures Separate(bs) <==>
              forall i, j :: 0 <= i < |bs| && 0 <= j < |bs| && i != j
                             && !bs[i].detached && !bs[j].detached && !bs[i].sparse && !bs[j].sparse ==>
                exists x: real, y: real :: Covers(bs[j].bbox, x, y) && !Covers(bs[i].bbox, x, y)
  {
    forall i, j | 0 <= i < |bs| && 0 <= j < |bs| && i != j
                  && !bs[i].detached && !bs[j].detached && !bs[i].sparse && !bs[j].sparse && Separate(bs)
      ensures exists x: real, y: real :: Covers(bs[j].bbox, x, y) && !Covers(bs[i].bbox, x, y)
    {
      assert PairOk(bs, if i < j then i else j, if i < j then j else i);
      ContainsIff(bs[i].bbox, bs[j].bbox);
    }
    forall i, j | 0 <= i < j < |bs| && !PairOk(bs, i, j)
      ensures (forall x: real, y: real :: Covers(bs[j].bbox, x, y) ==> Covers(bs[i].bbox, x, y))
           || (forall x: real, y: real :: Covers(bs[i].bbox, x, y) ==> Covers(bs[j].bbox, x, y))
    {
      ContainsIff(bs[i].bbox, bs[j].bbox);
      ContainsIff(bs[j].bbox, bs[i].bbox);
    }
  }

  // ----- expansion -----

  /** The smallest box around two boxes. */
  ghost predicate Around(c: Box, a: Box, b: Box) {
    c.Contains(a) && c.Contains(b) && forall d: Box :: d.Contains(a) && d.Contains(b) ==> d.Contains(c)
  }

  /** Some side moves by more than half a unit. */
  predicate Moves(c: Box, a: Box) {
    a.left - c.left > 0.5 || a.top - c.top > 0.5 || c.right - a.right > 0.5 || c.bottom - a.bottom > 0.5
  }

  /** The box of a figure becomes the smallest box around it and its image, exactly when
   *  that moves a side by more than half a unit and the larger box neither contains nor is
   *  contained in the box any other block had before. The old box is kept as evidence, the
   *  match is used up, and nothing else of the block changes. */
  lemma ExpandsIff(bs: seq<Block>, n: nat, c: Box)
    requires n < |bs| && bs[n].bbox.Valid() && bs[n].figure.Some?
    requires Around(c, bs[n].figure.value, bs[n].bbox)
    ensures var before, after := bs[n], Placed(bs)[n];
            var grows := Moves(c, before.bbox)
                         && forall k :: 0 <= k < |bs| && k != n ==>
                              !c.Contains(bs[k].bbox) && !bs[k].bbox.Contains(c);
            after == if grows then Block(c, None, before.detached, before.sparse, before.models + [before.bbox])
                     else before.(figure := None)
  {
    var a, b := bs[n].figure.value, bs[n].bbox;
    var u := Box(Min(a.left, b.left), Min(a.top, b.top), Max(a.right, b.right), Max(a.bottom, b.bottom));
    assert u.Contains(a) && u.Contains(b) && c.Contains(u) && u.Contains(c);
    assert u == c && c.Valid();
    assert Differ(b, c) <==> Moves(c, b);
    var boxes := Boxes(bs);
    assert Nests(boxes, n, c) <==>
           exists k :: 0 <= k < |bs| && k != n && (c.Contains(bs[k].bbox) || bs[k].bbox.Contains(c));
  }

  lemma UnmatchedIsKept(bs: seq<Block>, n: nat)
    requires n < |bs| && bs[n].figure.None?
    ensures Placed(bs)[n] == bs[n]
  {
  }

  // ----- the image behind a layout box -----

  /** The largest proper box inside two boxes. */
  ghost predicate Common(c: Box, a: Box, b: Box) {
    && c.Valid() && a.Contains(c) && b.Contains(c)
    && forall d: Box :: d.Valid() && a.Contains(d) && b.Contains(d) ==> c.Contains(d)
  }

  function Meet(a: Box, b: Box): Box {
    Box(Max(a.left, b.left), Max(a.top, b.top), Min(a.right, b.right), Min(a.bottom, b.bottom))
  }

  lemma CommonIsMeet(c: Box, a: Box, b: Box)
    requires a.Valid() && b.Valid()
    ensures Common(c, a, b) <==> c == Meet(a, b) && c.Valid()
  {
    var m := Meet(a, b);
    if Common(c, a, b) {
      assert m.Contains(c) && m.Valid();
      assert a.Contains(m) && b.Contains(m);
      assert c.Contains(m);
    }
  }

  /** Two boxes overlap in the area of the largest box inside both, and not at all when
   *  there is none. */
  lemma OverlapIsCommonArea(a: Box, b: Box)
    requires a.Valid() && b.Valid()
    ensures forall c: Box :: Common(c, a, b) ==> Overlap(a, b) == c.Area()
    ensures (forall c: Box :: !Common(c, a, b)) ==> Overlap(a, b) == 0.0
    ensures Overlap(a, b) == Overlap(b, a)
  {
    CommonIsMeet(Meet(a, b), a, b);
    forall c: Box | Common(c, a, b) ensures Overlap(a, b) == c.Area() {
      CommonIsMeet(c, a, b);
    }
  }

  /** An image stands behind a layout box with the rectangle `c` exactly when `c` is the
   *  part of it on the page, is at least 8 points wide and high, does not fill nine tenths
   *  of the page both ways, and covers at least 85 percent of the layout box. */
  lemma HoldsIff(bounds: Box, layout: Box, page: Box, c: Box)
    requires bounds.Valid() && layout.Valid() && page.Valid() && layout.Area() > 0.0
    ensures Holds(bounds, layout, page) == Some(c) <==>
              && Common(c, bounds, page)
              && c.right - c.left >= 8.0 && c.bottom - c.top >= 8.0
              && (c.right - c.left <= 0.9 * (page.right - page.left)
                  || c.bottom - c.top <= 0.9 * (page.bottom - page.top))
              && Overlap(layout, c) >= 0.85 * layout.Area()
  {
    CommonIsMeet(c, bounds, page);
    ShareAtLeast(Overlap(layout, c), layout.Area(), 0.85);
  }

  lemma ShareAtLeast(part: real, whole: real, share: real)
    requires whole > 0.0
    ensures part / whole >= share <==> part >= share * whole
  {
    var q := part / whole;
    assert q * whole == part;
    if q >= share { assert (q - share) * whole >= 0.0; }
    if q < share { assert (share - q) * whole > 0.0; }
  }

  /** The chosen image is smaller than any other that stands behind the box, by a factor
   *  of more than 1.15. */
  lemma ChosenStandsOut(images: seq<Box>, layout: Box, page: Box, m: nat)
    requires layout.Area() > 0.0
    ensures Clear(images, layout, page, m) <==>
              && m < |images| && Holds(images[m], layout, page).Some?
              && forall k :: 0 <= k < |images| && k != m && Holds(images[k], layout, page).Some? ==>
                   Holds(images[k], layout, page).value.Area() / Holds(images[m], layout, page).value.Area() > 1.15
  {
    if m < |images| && Holds(images[m], layout, page).Some? {
      var area := Holds(images[m], layout, page).value.Area();
      AreaPositive(Holds(images[m], layout, page).value);
      forall k | 0 <= k < |images| && Holds(images[k], layout, page).Some?
        ensures Holds(images[k], layout, page).value.Area() > area * 1.15
           <==> Holds(images[k], layout, page).value.Area() / area > 1.15
      {
        ShareMore(Holds(images[k], layout, page).value.Area(), area, 1.15);
      }
    }
  }

  lemma ShareMore(part: real, whole: real, share: real)
    requires whole > 0.0
    ensures part / whole > share <==> part > whole * share
  {
    var q := part / whole;
    assert q * whole == part;
    if q > share { assert (q - share) * whole > 0.0; }
    if q <= share { assert (share - q) * whole >= 0.0; }
  }

  // ----- delivery -----

  /** What a settled block delivers, case by case. */
  lemma DeliveredSource(before: seq<D.Block>, after: seq<D.Block>, images: nat, k: nat)
    requires k < |before| == |after| && D.Settled(before, after, images, k)
    ensures var b, asset := before[k], after[k].asset;
            && (!b.isFigure && b.index.None? ==> after[k] == b.(asset := None))
            && (!b.succeeds ==> asset.None?)
            && (b.succeeds && b.isFigure && |b.parts| >= 2 ==> asset == Some(D.Raster))
            && (b.succeeds && b.isFigure && b.index.None? ==> asset == Some(D.Raster))
            && (b.succeeds && b.index.Some? && b.index.value >= images ==> asset == Some(D.Raster))
            && (b.succeeds && (!b.isFigure || |b.parts| < 2) && b.index.Some? && b.index.value < images ==>
                  asset == if D.Claimed(before, after, k, b.index.value) then None
                           else Some(D.Embedded(b.index.value)))
  {
  }

  /** An image counts as delivered by block `k` exactly when it is the block's own match, or
   *  a part of a figure that shows the page raster for want of a single match. */
  lemma ClaimedByIff(before: seq<D.Block>, after: seq<D.Block>, k: nat, i: nat)
    requires k < |before| == |after|
    ensures D.Claimed(before, after, k + 1, i) <==>
              || D.Claimed(before, after, k, i)
              || (after[k].asset.Some?
                  && (before[k].index == Some(i)
                      || (before[k].isFigure && i in before[k].parts
                          && (|before[k].parts| >= 2 || before[k].index.None?))))
  {
    assert after[k].asset.Some? && D.Visited(before[k]) && D.Absorbs(before[k], i) ==>
             D.Claimed(before, after, k + 1, i);
    if D.Claimed(before, after, k, i) {
      var n :| 0 <= n < k && after[n].asset.Some? && D.Visited(before[n]) && D.Absorbs(before[n], i);
      assert D.Claimed(before, after, k + 1, i);
    }
    if D.Claimed(before, after, k + 1, i) {
      var n :| 0 <= n < k + 1 && after[n].asset.Some? && D.Visited(before[n]) && D.Absorbs(before[n], i);
      assert n < k ==> D.Claimed(before, after, k, i);
    }
  }
}
