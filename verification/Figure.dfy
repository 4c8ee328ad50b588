/** Figure placement of crates/core/src/figure.rs, and the containment rule at the end
 *  of `validate_page_node` in crates/core/src/validate.rs. Coordinates are reals. */
module Figures {
  import opened Wrappers

  datatype Box = Box(left: real, top: real, right: real, bottom: real)
  {
    predicate Valid() {
      left < right && top < bottom
    }

    /** Shared edges count as inside. */
    predicate Contains(o: Box) {
      left <= o.left && top <= o.top && right >= o.right && bottom >= o.bottom
    }

    function Width(): real {
      right - left
    }

    function Height(): real {
      bottom - top
    }

    function Area(): real {
      Width() * Height()
    }
  }

  function Min(a: real, b: real): real {
    if a < b then a else b
  }

  function Max(a: real, b: real): real {
    if a > b then a else b
  }

  /** A box is only built from proper sides. */
  function TryBox(b: Box): (r: Option<Box>)
    ensures r == if b.Valid() then Some(b) else None
  {
    if b.right <= b.left || b.bottom <= b.top then None else Some(b)
  }

  function Union(a: Box, b: Box): (r: Option<Box>)
    ensures r.Some? ==> r.value.Valid() && r.value.Contains(a) && r.value.Contains(b)
  {
    TryBox(Box(Min(a.left, b.left), Min(a.top, b.top), Max(a.right, b.right), Max(a.bottom, b.bottom)))
  }

  const EPSILON := 0.5

  predicate Apart(a: real, b: real) {
    a - b > EPSILON || b - a > EPSILON
  }

  predicate Differ(a: Box, b: Box) {
    Apart(a.left, b.left) || Apart(a.top, b.top) || Apart(a.right, b.right) || Apart(a.bottom, b.bottom)
  }

  // ----- expanding figure boxes -----

  /** `models` are the replaced boxes, kept as evidence. */
  datatype Block = Block(bbox: Box, figure: Option<Box>, detached: bool, sparse: bool, models: seq<Box>)

  predicate Nests(boxes: seq<Box>, n: nat, candidate: Box) {
    exists other :: 0 <= other < |boxes| && other != n
                    && (candidate.Contains(boxes[other]) || boxes[other].Contains(candidate))
  }

  function Boxes(bs: seq<Block>): (r: seq<Box>)
    ensures |r| == |bs| && forall k :: 0 <= k < |bs| ==> r[k] == bs[k].bbox
  {
    seq(|bs|, k requires 0 <= k < |bs| => bs[k].bbox)
  }

  /** The box the `n`-th block would take, when that is allowed. */
  function Expansion(bs: seq<Block>, boxes: seq<Box>, n: nat): (r: Option<Box>)
    requires n < |bs|
  {
    if bs[n].figure.None? then None
    else
      match Union(bs[n].figure.value, bs[n].bbox)
      case None => None
      case Some(candidate) =>
        if Differ(bs[n].bbox, candidate) && !Nests(boxes, n, candidate) then Some(candidate) else None
  }

  function PlacedAt(bs: seq<Block>, boxes: seq<Box>, n: nat): Block
    requires n < |bs|
  {
    var b := bs[n].(figure := None);
    match Expansion(bs, boxes, n)
    case None => b
    case Some(candidate) => b.(bbox := candidate, models := b.models + [b.bbox])
  }

  /** Every block is decided against the boxes as they were before. */
  function Placed(bs: seq<Block>): (r: seq<Block>)
    ensures |r| == |bs| && forall n :: 0 <= n < |bs| ==> r[n] == PlacedAt(bs, Boxes(bs), n)
  {
    seq(|bs|, n requires 0 <= n < |bs| => PlacedAt(bs, Boxes(bs), n))
  }

  /** Boxes only grow, and a block that grew contains the box and the image it came from. */
  lemma PlacedGrows(bs: seq<Block>, n: nat)
    requires n < |bs|
    ensures Placed(bs)[n].bbox == bs[n].bbox || Placed(bs)[n].bbox.Contains(bs[n].bbox)
    ensures Placed(bs)[n].bbox != bs[n].bbox ==>
              bs[n].figure.Some? && Placed(bs)[n].bbox.Contains(bs[n].figure.value)
  {
  }

  /** Whatever the number of simultaneous expansions: a box that contains another one
   *  afterwards contained it before, and neither of the two was moved. */
  lemma NoNewNesting(bs: seq<Block>, i: nat, j: nat)
    requires i < |bs| && j < |bs| && i != j
    requires Placed(bs)[i].bbox.Contains(Placed(bs)[j].bbox)
    ensures Placed(bs)[i].bbox == bs[i].bbox && Placed(bs)[j].bbox == bs[j].bbox
    ensures bs[i].bbox.Contains(bs[j].bbox)
  {
    var boxes := Boxes(bs);
    PlacedGrows(bs, i);
    PlacedGrows(bs, j);
    if Expansion(bs, boxes, i).Some? {
      assert Placed(bs)[i].bbox.Contains(boxes[j]);
    }
    if Expansion(bs, boxes, j).Some? {
      assert boxes[i] == bs[i].bbox;
    }
  }

  predicate PairOk(bs: seq<Block>, i: nat, j: nat)
    requires i < |bs| && j < |bs|
  {
    bs[i].detached || bs[j].detached || bs[i].sparse || bs[j].sparse
    || (!bs[i].bbox.Contains(bs[j].bbox) && !bs[j].bbox.Contains(bs[i].bbox))
  }

  /** The validator's rule: no content box may contain another, unless one of them is a
   *  sparse union. */
  predicate Separate(bs: seq<Block>) {
    forall i, j :: 0 <= i < j < |bs| ==> PairOk(bs, i, j)
  }

  /** Placing figures keeps the rule. */
  lemma PlacedStaysSeparate(bs: seq<Block>)
    requires Separate(bs)
    ensures Separate(Placed(bs))
  {
    var r := Placed(bs);
    forall i, j | 0 <= i < j < |r| ensures PairOk(r, i, j) {
      assert PairOk(bs, i, j);
      if r[i].bbox.Contains(r[j].bbox) { NoNewNesting(bs, i, j); }
      if r[j].bbox.Contains(r[i].bbox) { NoNewNesting(bs, j, i); }
    }
  }

  method Place(blocks: array<Block>)
    modifies blocks
    ensures blocks[..] == Placed(old(blocks[..]))
  {
    ghost var before := blocks[..];
    var current := Boxes(blocks[..]);
    for n := 0 to blocks.Length
      invariant forall k :: 0 <= k < n ==> blocks[k] == PlacedAt(before, current, k)
      invariant forall k :: n <= k < blocks.Length ==> blocks[k] == before[k]
    {
      var figure := blocks[n].figure;
      blocks[n] := blocks[n].(figure := None);
      if figure.Some? {
        var candidate := Union(figure.value, blocks[n].bbox);
        if candidate.Some? && Differ(blocks[n].bbox, candidate.value) && !Nests(current, n, candidate.value) {
          var model := blocks[n].bbox;
          blocks[n] := blocks[n].(bbox := candidate.value, models := blocks[n].models + [model]);
        }
      }
    }
  }

  /** The validator's pairwise check. */
  method CheckSeparate(bs: seq<Block>) returns (ok: bool)
    ensures ok <==> Separate(bs)
  {
    for i := 0 to |bs|
      invariant forall p, q :: 0 <= p < i && p < q < |bs| ==> PairOk(bs, p, q)
    {
      if !bs[i].detached {
        for j := i + 1 to |bs|
          invariant forall q :: i < q < j ==> PairOk(bs, i, q)
        {
          if !bs[j].detached && (bs[i].bbox.Contains(bs[j].bbox) || bs[j].bbox.Contains(bs[i].bbox))
             && !bs[i].sparse && !bs[j].sparse {
            assert !PairOk(bs, i, j);
            return false;
          }
        }
      }
    }
    return true;
  }

  // ----- the image behind a layout box -----

  const CONTAINMENT := 0.85
  const RATIO := 1.15
  const MIN_SIDE := 8.0
  const PAGE_COVERAGE := 0.9

  /** The image's rectangle on the page, when it may replace a layout box. */
  function Placement(bounds: Box, page: Box): (r: Option<Box>)
    ensures r.Some? ==> r.value.Valid() && r.value.Width() >= MIN_SIDE && r.value.Height() >= MIN_SIDE
  {
    match TryBox(Box(Max(bounds.left, page.left), Max(bounds.top, page.top),
                     Min(bounds.right, page.right), Min(bounds.bottom, page.bottom)))
    case None => None
    case Some(b) =>
      if b.Width() < MIN_SIDE || b.Height() < MIN_SIDE then None
      else if b.Width() > page.Width() * PAGE_COVERAGE && b.Height() > page.Height() * PAGE_COVERAGE then None
      else Some(b)
  }

  function Overlap(a: Box, b: Box): real {
    Max(Min(a.right, b.right) - Max(a.left, b.left), 0.0) * Max(Min(a.bottom, b.bottom) - Max(a.top, b.top), 0.0)
  }

  /** The placed rectangle, when the image contains nearly all of the layout. */
  function Holds(bounds: Box, layout: Box, page: Box): (r: Option<Box>)
    requires layout.Area() > 0.0
    ensures r.Some? ==> r.value.Width() >= MIN_SIDE && r.value.Height() >= MIN_SIDE
  {
    match Placement(bounds, page)
    case None => None
    case Some(b) => if Overlap(layout, b) / layout.Area() >= CONTAINMENT then Some(b) else None
  }

  lemma AreaPositive(b: Box)
    requires b.Width() >= MIN_SIDE && b.Height() >= MIN_SIDE
    ensures b.Area() > 0.0
  {
  }

  /** The `m`-th image holds the layout, and every other one that does is clearly larger. */
  predicate Clear(images: seq<Box>, layout: Box, page: Box, m: nat)
    requires layout.Area() > 0.0
  {
    && m < |images| && Holds(images[m], layout, page).Some?
    && forall k :: 0 <= k < |images| && k != m && Holds(images[k], layout, page).Some? ==>
         Holds(images[k], layout, page).value.Area() > Holds(images[m], layout, page).value.Area() * RATIO
  }

  lemma ClearIsUnique(images: seq<Box>, layout: Box, page: Box, m: nat, n: nat)
    requires layout.Area() > 0.0 && Clear(images, layout, page, m) && Clear(images, layout, page, n)
    ensures m == n
  {
    var a, b := Holds(images[m], layout, page).value, Holds(images[n], layout, page).value;
    AreaPositive(a);
    AreaPositive(b);
  }

  datatype Match = Match(index: nat, bounds: Box)

  /** What the one-pass scan knows after the first `n` images: the first of the smallest,
   *  and the area of the smallest of the others. */
  ghost predicate Scanned(images: seq<Box>, layout: Box, page: Box, n: nat, best: Option<Match>, second: Option<real>)
    requires layout.Area() > 0.0 && n <= |images|
  {
    && (best.None? ==> second.None? && forall k :: 0 <= k < n ==> Holds(images[k], layout, page).None?)
    && (best.Some? ==> best.value.index < n && Holds(images[best.value.index], layout, page) == Some(best.value.bounds))
    && (best.Some? ==> forall k :: 0 <= k < n && Holds(images[k], layout, page).Some? ==>
          Holds(images[k], layout, page).value.Area() >= best.value.bounds.Area())
    && (best.Some? ==> forall k :: 0 <= k < n && k != best.value.index && Holds(images[k], layout, page).Some? ==>
          second.Some? && Holds(images[k], layout, page).value.Area() >= second.value)
    && (second.Some? ==> exists k :: (0 <= k < n && k != best.value.index && Holds(images[k], layout, page).Some?
                                      && Holds(images[k], layout, page).value.Area() == second.value))
  }

  lemma ScanDecides(images: seq<Box>, layout: Box, page: Box, best: Option<Match>, second: Option<real>)
    requires layout.Area() > 0.0 && Scanned(images, layout, page, |images|, best, second)
    ensures best.None? ==> forall m: nat :: !Clear(images, layout, page, m)
    ensures best.Some? && second.Some? && second.value <= best.value.bounds.Area() * RATIO ==>
              forall m: nat :: !Clear(images, layout, page, m)
    ensures best.Some? && (second.None? || second.value > best.value.bounds.Area() * RATIO) ==>
              Clear(images, layout, page, best.value.index)
  {
    if best.Some? {
      var b := best.value;
      AreaPositive(b.bounds);
      if second.Some? && second.value <= b.bounds.Area() * RATIO {
        forall m: nat ensures !Clear(images, layout, page, m) {
          if m < |images| && Holds(images[m], layout, page).Some? {
            AreaPositive(Holds(images[m], layout, page).value);
          }
        }
      }
    }
  }

  /** The one-pass search finds the clearly smallest image, if there is one. */
  method Container(images: seq<Box>, layout: Box, page: Box) returns (r: Option<Match>)
    ensures layout.Area() <= 0.0 ==> r.None?
    ensures layout.Area() > 0.0 ==> (r.Some? <==> exists m: nat :: Clear(images, layout, page, m))
    ensures layout.Area() > 0.0 && r.Some? ==>
              && Clear(images, layout, page, r.value.index)
              && Holds(images[r.value.index], layout, page) == Some(r.value.bounds)
  {
    if layout.Area() <= 0.0 {
      return None;
    }
    var best: Option<Match> := None;
    var second: Option<real> := None;
    for n := 0 to |images|
      invariant Scanned(images, layout, page, n, best, second)
    {
      var candidate := Holds(images[n], layout, page);
      if candidate.Some? {
        best, second := Consider(images, layout, page, n, best, second, candidate.value);
      }
    }
    ScanDecides(images, layout, page, best, second);
    if best.None? || (second.Some? && second.value <= best.value.bounds.Area() * RATIO) {
      return None;
    }
    return best;
  }

  method Consider(images: seq<Box>, layout: Box, page: Box, n: nat, best: Option<Match>, second: Option<real>, b: Box)
    returns (best': Option<Match>, second': Option<real>)
    requires layout.Area() > 0.0 && n < |images| && Scanned(images, layout, page, n, best, second)
    requires Holds(images[n], layout, page) == Some(b)
    ensures Scanned(images, layout, page, n + 1, best', second')
  {
    best', second' := best, second;
    if best.None? || b.Area() < best.value.bounds.Area() {
      second' := if best.None? then None else Some(best.value.bounds.Area());
      best' := Some(Match(n, b));
      if best.Some? {
        assert Holds(images[best.value.index], layout, page).value.Area() == second'.value;
      }
    } else if second.None? || b.Area() < second.value {
      second' := Some(b.Area());
      assert Holds(images[n], layout, page).value.Area() == second'.value;
    }
  }

  // ----- sorting and reordering -----

  /** The images that hold the layout, in their order. */
  ghost function Qualifying(images: seq<Box>, layout: Box, page: Box): seq<Box>
    requires layout.Area() > 0.0
  {
    if images == [] then []
    else
      var n := |images| - 1;
      Qualifying(images[..n], layout, page) + if Holds(images[n], layout, page).Some? then [images[n]] else []
  }

  lemma {:induction false} QualifyingCounts(images: seq<Box>, layout: Box, page: Box, b: Box)
    requires layout.Area() > 0.0
    ensures multiset(Qualifying(images, layout, page))[b]
         == if Holds(b, layout, page).Some? then multiset(images)[b] else 0
  {
    if images != [] {
      var n := |images| - 1;
      QualifyingCounts(images[..n], layout, page, b);
      assert images == images[..n] + [images[n]];
    }
  }

  /** The rectangles of the images are in order of their areas. */
  ghost predicate SortedByArea(images: seq<Box>, layout: Box, page: Box)
    requires layout.Area() > 0.0
  {
    && (forall k :: 0 <= k < |images| ==> Holds(images[k], layout, page).Some?)
    && forall i, j :: 0 <= i < j < |images| ==>
         Holds(images[i], layout, page).value.Area() <= Holds(images[j], layout, page).value.Area()
  }

  /** The first is clearly smaller than the runner-up, if there is one. */
  ghost predicate FirstStandsOut(sorted: seq<Box>, layout: Box, page: Box)
    requires layout.Area() > 0.0 && SortedByArea(sorted, layout, page)
  {
    && |sorted| > 0
    && (|sorted| > 1 ==>
          Holds(sorted[1], layout, page).value.Area() > Holds(sorted[0], layout, page).value.Area() * RATIO)
  }

  lemma ChoiceOfSorted(images: seq<Box>, layout: Box, page: Box)
    requires layout.Area() > 0.0 && SortedByArea(images, layout, page)
    ensures (exists m: nat :: Clear(images, layout, page, m)) <==> FirstStandsOut(images, layout, page)
    ensures forall m: nat :: Clear(images, layout, page, m) ==> m == 0
  {
    forall k | 0 <= k < |images| ensures Holds(images[k], layout, page).value.Area() > 0.0 {
      AreaPositive(Holds(images[k], layout, page).value);
    }
    if FirstStandsOut(images, layout, page) {
      assert Clear(images, layout, page, 0);
    }
  }

  lemma {:induction false} InMultiset<T>(s: seq<T>, k: nat)
    requires k < |s|
    ensures s[k] in multiset(s)
  {
  }

  /** An element that occurs twice occurs at two places. */
  lemma {:induction false} TwiceAt<T>(s: seq<T>, k: nat)
    requires k < |s| && multiset(s)[s[k]] >= 2
    ensures exists n: nat :: n < |s| && n != k && s[n] == s[k]
  {
    var rest := s[..k] + s[k + 1..];
    assert s == s[..k] + [s[k]] + s[k + 1..];
    assert multiset(s) == multiset(rest) + multiset{s[k]};
    assert s[k] in rest;
    var i :| 0 <= i < |rest| && rest[i] == s[k];
    var n := if i < k then i else i + 1;
    assert s[n] == s[k] && n != k;
  }

  lemma TwoPlaces<T>(s: seq<T>, i: nat, j: nat)
    requires i < j < |s| && s[i] == s[j]
    ensures multiset(s)[s[i]] >= 2
  {
    assert s == s[..j] + [s[j]] + s[j + 1..];
    assert s[..j][i] == s[i];
    assert multiset(s) == multiset(s[..j]) + multiset{s[j]} + multiset(s[j + 1..]);
  }

  /** Both lists hold every qualifying image equally often. */
  ghost predicate SameQualifying(images: seq<Box>, others: seq<Box>, layout: Box, page: Box)
    requires layout.Area() > 0.0
  {
    forall b :: Holds(b, layout, page).Some? ==> multiset(images)[b] == multiset(others)[b]
  }

  /** Among the same qualifying images, in any order, the same image is chosen. */
  lemma ClearAfterReordering(images: seq<Box>, others: seq<Box>, layout: Box, page: Box, m: nat) returns (n: nat)
    requires layout.Area() > 0.0 && SameQualifying(images, others, layout, page) && Clear(images, layout, page, m)
    ensures Clear(others, layout, page, n) && others[n] == images[m]
  {
    InMultiset(images, m);
    assert images[m] in multiset(others);
    n :| n < |others| && others[n] == images[m];
    var b := Holds(images[m], layout, page).value;
    AreaPositive(b);
    forall k | 0 <= k < |others| && k != n && Holds(others[k], layout, page).Some?
      ensures Holds(others[k], layout, page).value.Area() > b.Area() * RATIO
    {
      InMultiset(others, k);
      if others[k] == images[m] {
        TwoPlaces(others, if k < n then k else n, if k < n then n else k);
        TwiceAt(images, m);
      } else {
        assert others[k] in multiset(images);
        var j :| 0 <= j < |images| && images[j] == others[k];
      }
    }
  }

  /** For every image list, sorting the qualifying images by area, in whatever order
   *  equal areas end up, and looking at the first two is what the search amounts to:
   *  it finds an image exactly when the first stands out, and then it is the first. */
  lemma SortedChoice(images: seq<Box>, sorted: seq<Box>, layout: Box, page: Box)
    requires layout.Area() > 0.0 && SortedByArea(sorted, layout, page)
    requires multiset(sorted) == multiset(Qualifying(images, layout, page))
    ensures (exists m: nat :: Clear(images, layout, page, m)) <==> FirstStandsOut(sorted, layout, page)
    ensures forall m: nat :: Clear(images, layout, page, m) ==> |sorted| > 0 && images[m] == sorted[0]
  {
    forall b | Holds(b, layout, page).Some? ensures multiset(images)[b] == multiset(sorted)[b] {
      QualifyingCounts(images, layout, page, b);
    }
    ChoiceOfSorted(sorted, layout, page);
    forall m: nat | Clear(images, layout, page, m)
      ensures FirstStandsOut(sorted, layout, page) && images[m] == sorted[0]
    {
      var n := ClearAfterReordering(images, sorted, layout, page, m);
    }
    if FirstStandsOut(sorted, layout, page) {
      var n: nat :| Clear(sorted, layout, page, n);
      var m := ClearAfterReordering(sorted, images, layout, page, n);
    }
  }

  /** The chosen rectangle does not depend on the order of the images. */
  lemma ChoiceIgnoresOrder(images: seq<Box>, others: seq<Box>, layout: Box, page: Box)
    requires layout.Area() > 0.0 && multiset(images) == multiset(others)
    ensures (exists m: nat :: Clear(images, layout, page, m)) <==> (exists n: nat :: Clear(others, layout, page, n))
    ensures forall m: nat, n: nat :: Clear(images, layout, page, m) && Clear(others, layout, page, n) ==>
              Holds(images[m], layout, page) == Holds(others[n], layout, page)
  {
    if m: nat :| Clear(images, layout, page, m) {
      var n := ClearAfterReordering(images, others, layout, page, m);
      forall p: nat, q: nat | Clear(images, layout, page, p) && Clear(others, layout, page, q)
        ensures Holds(images[p], layout, page) == Holds(others[q], layout, page)
      {
        ClearIsUnique(images, layout, page, m, p);
        ClearIsUnique(others, layout, page, n, q);
      }
    }
    if n: nat :| Clear(others, layout, page, n) {
      var m := ClearAfterReordering(others, images, layout, page, n);
    }
  }
}
