/** `FigureCatalog::attach` of crates/core/src/figure.rs: every embedded image is
 *  delivered once, by a block or on its own. */
module FigureDelivery {
  import opened Wrappers

  /** The page raster, or the embedded image of this number. */
  datatype Source = Raster | Embedded(image: nat)

  /** `parts` are the images that belong to the block's rectangle; `succeeds` says whether
   *  preparing and writing its asset works. */
  datatype Block = Block(isFigure: bool, index: Option<nat>, parts: seq<nat>, succeeds: bool, asset: Option<Source>)

  predicate Visited(b: Block) {
    b.isFigure || b.index.Some?
  }

  predicate Composite(b: Block) {
    b.isFigure && |b.parts| > 1
  }

  /** Which asset the block would get. */
  function SourceOf(b: Block, images: nat): Source {
    if !Composite(b) && b.index.Some? && b.index.value < images then Embedded(b.index.value) else Raster
  }

  /** The block of the input `b` speaks for image `i`: its own match, or a part that its
   *  raster crop absorbs. */
  predicate Absorbs(b: Block, i: nat) {
    b.index == Some(i) || (b.isFigure && i in b.parts && (Composite(b) || b.index.None?))
  }

  ghost predicate Claimed(before: seq<Block>, after: seq<Block>, n: nat, i: nat)
    requires n <= |before| == |after|
  {
    exists k :: 0 <= k < n && after[k].asset.Some? && Visited(before[k]) && Absorbs(before[k], i)
  }

  /** The block would only repeat an image that an earlier block has claimed. */
  ghost predicate Repeats(before: seq<Block>, after: seq<Block>, images: nat, k: nat)
    requires k < |before| == |after|
  {
    && !Composite(before[k]) && before[k].index.Some? && before[k].index.value < images
    && Claimed(before, after, k, before[k].index.value)
  }

  /** The block has its asset exactly when it is visited, its asset succeeds and repeats no
   *  image; a visited block gives up its match, and nothing else of a block changes. */
  ghost predicate Settled(before: seq<Block>, after: seq<Block>, images: nat, k: nat)
    requires k < |before| == |after|
  {
    var b := before[k];
    && after[k].(asset := None, index := None) == b.(asset := None, index := None)
    && after[k].index == (if Visited(b) then None else b.index)
    && after[k].asset == (if Visited(b) && b.succeeds && !Repeats(before, after, images, k)
                          then Some(SourceOf(b, images)) else None)
  }

  /** The block was tried and its asset failed. */
  ghost predicate Failed(before: seq<Block>, after: seq<Block>, images: nat, k: nat)
    requires k < |before| == |after|
  {
    Visited(before[k]) && !before[k].succeeds && !Repeats(before, after, images, k)
  }

  method MarkParts(delivered: array<bool>, parts: seq<nat>)
    modifies delivered
    ensures forall i :: 0 <= i < delivered.Length ==> delivered[i] == (old(delivered[i]) || i in parts)
  {
    for p := 0 to |parts|
      invariant forall i :: 0 <= i < delivered.Length ==> delivered[i] == (old(delivered[i]) || i in parts[..p])
    {
      if parts[p] < delivered.Length {
        delivered[parts[p]] := true;
      }
      assert parts[..p + 1] == parts[..p] + [parts[p]];
    }
    assert parts[..|parts|] == parts;
  }

  predicate Taken(b: Block, delivered: seq<bool>) {
    !Composite(b) && b.index.Some? && b.index.value < |delivered| && delivered[b.index.value]
  }

  /** One block of the loop. */
  method Deliver(b: Block, delivered: array<bool>) returns (after: Block, failed: bool)
    requires b.asset.None? && Visited(b)
    modifies delivered
    ensures after.(asset := None) == b.(index := None)
    ensures after.asset
         == if b.succeeds && !Taken(b, old(delivered[..])) then Some(SourceOf(b, delivered.Length)) else None
    ensures failed <==> !b.succeeds && !Taken(b, old(delivered[..]))
    ensures forall i :: 0 <= i < delivered.Length ==>
              delivered[i] == (old(delivered[i]) || (after.asset.Some? && Absorbs(b, i)))
  {
    var index := b.index;
    after, failed := b.(index := None), false;
    if !Composite(b) && index.Some? && index.value < delivered.Length && delivered[index.value] {
      return;
    }
    if b.succeeds {
      after := after.(asset := Some(SourceOf(b, delivered.Length)));
      if b.isFigure && (Composite(b) || index.None?) {
        MarkParts(delivered, b.parts);
      }
      if index.Some? && index.value < delivered.Length {
        delivered[index.value] := true;
      }
    } else {
      failed := true;
    }
  }

  /** Each embedded image ends up in exactly one place: with a block that absorbed it, among
   *  the remaining assets, or in a warning; and no image is the asset of two blocks. Each
   *  visited block has its asset, repeats an image, or is in a warning. */
  method Attach(blocks: array<Block>, images: nat, writable: seq<bool>)
    returns (remaining: seq<nat>, warned: seq<nat>, failed: seq<nat>)
    requires |writable| == images && forall k :: 0 <= k < blocks.Length ==> blocks[k].asset.None?
    modifies blocks
    ensures forall k :: 0 <= k < blocks.Length ==> Settled(old(blocks[..]), blocks[..], images, k)
    ensures forall k: nat :: k in failed <==> k < blocks.Length && Failed(old(blocks[..]), blocks[..], images, k)
    ensures forall i :: 0 <= i < images ==>
              (i in remaining <==> !Claimed(old(blocks[..]), blocks[..], blocks.Length, i) && writable[i])
    ensures forall i :: 0 <= i < images ==>
              (i in warned <==> !Claimed(old(blocks[..]), blocks[..], blocks.Length, i) && !writable[i])
    ensures forall i :: i in remaining + warned ==> i < images
    ensures forall j, k :: 0 <= j < k < |remaining| ==> remaining[j] < remaining[k]
    ensures OneOwner(blocks[..])
  {
    ghost var before := blocks[..];
    var delivered := new bool[images](_ => false);
    failed := [];
    for n := 0 to blocks.Length
      invariant forall k :: n <= k < blocks.Length ==> blocks[k] == before[k]
      invariant forall k :: 0 <= k < n ==> Settled(before, blocks[..], images, k)
      invariant forall k: nat :: k in failed <==> k < n && Failed(before, blocks[..], images, k)
      invariant forall i :: 0 <= i < images ==> (delivered[i] <==> Claimed(before, blocks[..], n, i))
    {
      ghost var current := blocks[..];
      ghost var marked := delivered[..];
      if Visited(blocks[n]) {
        var after, fails := Deliver(blocks[n], delivered);
        blocks[n] := after;
        failed := if fails then failed + [n] else failed;
      }
      assert blocks[..] == current[n := blocks[n]];
      OneMore(before, current, blocks[..], images, n);
    }
    assert blocks[..blocks.Length] == blocks[..];
    NobodyShares(before, blocks[..], images);
    remaining, warned := Leftovers(delivered[..], writable);
  }

  /** No image is the asset of two blocks. */
  predicate OneOwner(bs: seq<Block>) {
    forall j, k :: 0 <= j < k < |bs| && bs[j].asset.Some? && bs[j].asset.value.Embedded? ==> bs[k].asset != bs[j].asset
  }

  lemma ClaimedSoFar(before: seq<Block>, current: seq<Block>, after: seq<Block>, n: nat, m: nat, i: nat)
    requires m <= n < |before| == |current| == |after| && after == current[n := after[n]]
    ensures Claimed(before, after, m, i) <==> Claimed(before, current, m, i)
  {
    if Claimed(before, after, m, i) {
      var k :| 0 <= k < m && after[k].asset.Some? && Visited(before[k]) && Absorbs(before[k], i);
      assert current[k] == after[k];
    }
    if Claimed(before, current, m, i) {
      var k :| 0 <= k < m && current[k].asset.Some? && Visited(before[k]) && Absorbs(before[k], i);
      assert after[k] == current[k];
    }
  }

  lemma SettledStays(before: seq<Block>, current: seq<Block>, after: seq<Block>, images: nat, n: nat, k: nat)
    requires k <= n < |before| == |current| == |after| && after == current[n := after[n]]
    ensures Repeats(before, after, images, k) <==> Repeats(before, current, images, k)
    ensures Failed(before, after, images, k) <==> Failed(before, current, images, k)
    ensures k < n ==> (Settled(before, after, images, k) <==> Settled(before, current, images, k))
  {
    if before[k].index.Some? {
      ClaimedSoFar(before, current, after, n, k, before[k].index.value);
    }
  }

  lemma OneMore(before: seq<Block>, current: seq<Block>, after: seq<Block>, images: nat, n: nat)
    requires n < |before| == |current| == |after| && after == current[n := after[n]]
    ensures forall i: nat :: Claimed(before, after, n + 1, i) <==>
              Claimed(before, current, n, i) || (after[n].asset.Some? && Visited(before[n]) && Absorbs(before[n], i))
    ensures forall k: nat :: k <= n ==> (Failed(before, after, images, k) <==> Failed(before, current, images, k))
    ensures forall k: nat :: k < n ==> (Settled(before, after, images, k) <==> Settled(before, current, images, k))
    ensures Repeats(before, after, images, n) <==> Repeats(before, current, images, n)
  {
    forall i: nat
      ensures Claimed(before, after, n + 1, i) <==>
                Claimed(before, current, n, i) || (after[n].asset.Some? && Visited(before[n]) && Absorbs(before[n], i))
    {
      ClaimedSoFar(before, current, after, n, n, i);
      if Claimed(before, after, n + 1, i) {
        var k :| 0 <= k < n + 1 && after[k].asset.Some? && Visited(before[k]) && Absorbs(before[k], i);
        assert k < n ==> Claimed(before, after, n, i);
      }
      if Claimed(before, after, n, i) {
        var k :| 0 <= k < n && after[k].asset.Some? && Visited(before[k]) && Absorbs(before[k], i);
        assert Claimed(before, after, n + 1, i);
      }
      if after[n].asset.Some? && Visited(before[n]) && Absorbs(before[n], i) {
        assert Claimed(before, after, n + 1, i);
      }
    }
    forall k: nat | k <= n
      ensures Failed(before, after, images, k) <==> Failed(before, current, images, k)
      ensures Repeats(before, after, images, k) <==> Repeats(before, current, images, k)
      ensures k < n ==> (Settled(before, after, images, k) <==> Settled(before, current, images, k))
    {
      SettledStays(before, current, after, images, n, k);
    }
  }

  /** An image that is the asset of a block is not the asset of a later one. */
  lemma NobodyShares(before: seq<Block>, after: seq<Block>, images: nat)
    requires |before| == |after| && forall k :: 0 <= k < |after| ==> Settled(before, after, images, k)
    ensures OneOwner(after)
  {
    forall j, k | 0 <= j < k < |after| && after[j].asset.Some? && after[j].asset.value.Embedded?
      ensures after[k].asset != after[j].asset
    {
      if after[k].asset == after[j].asset {
        assert Settled(before, after, images, j) && Settled(before, after, images, k);
        assert Absorbs(before[j], after[j].asset.value.image);
      }
    }
  }

  method Leftovers(delivered: seq<bool>, writable: seq<bool>) returns (remaining: seq<nat>, warned: seq<nat>)
    requires |delivered| == |writable|
    ensures forall i: nat :: i in remaining <==> i < |delivered| && !delivered[i] && writable[i]
    ensures forall i: nat :: i in warned <==> i < |delivered| && !delivered[i] && !writable[i]
    ensures forall j, k :: 0 <= j < k < |remaining| ==> remaining[j] < remaining[k]
  {
    remaining, warned := [], [];
    for n := 0 to |delivered|
      invariant forall i: nat :: i in remaining <==> i < n && !delivered[i] && writable[i]
      invariant forall i: nat :: i in warned <==> i < n && !delivered[i] && !writable[i]
      invariant forall k :: 0 <= k < |remaining| ==> remaining[k] < n
      invariant forall j, k :: 0 <= j < k < |remaining| ==> remaining[j] < remaining[k]
    {
      if !delivered[n] {
        if writable[n] {
          remaining := remaining + [n];
        } else {
          warned := warned + [n];
        }
      }
    }
  }
}
