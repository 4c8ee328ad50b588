/** What `validate_block_lists` of crates/core/src/validate.rs accepts, said about the whole
 *  list instead of step by step. */
module ListLaws {
  import opened Wrappers
  import opened ListForest
  import opened ListSpans
  import opened ListValidation

  /** The last line that carries the id of the `p`-th line of item `n`. */
  predicate IsLineOf(b: Block, n: nat, p: nat, l: nat)
    requires n < |b.items| && p < |b.items[n].lineIds|
  {
    var id := b.items[n].lineIds[p];
    l < |b.lineIds| && b.lineIds[l] == id && forall k :: l < k < |b.lineIds| ==> b.lineIds[k] != id
  }

  lemma {:induction false} LookupIsLast(lineIds: seq<string>, id: string)
    requires id in lineIds
    ensures forall k :: Lookup(lineIds)[id] < k < |lineIds| ==> lineIds[k] != id
  {
    var n := |lineIds| - 1;
    if id != lineIds[n] {
      assert lineIds == lineIds[..n] + [lineIds[n]];
      LookupIsLast(lineIds[..n], id);
    }
  }

  lemma LineOfIff(b: Block, n: nat, p: nat, l: nat)
    requires n < |b.items| && p < |b.items[n].lineIds|
    ensures HasLine(b, n, p) <==> b.items[n].lineIds[p] in b.lineIds
    ensures HasLine(b, n, p) && LineOf(b, n, p) == l <==> IsLineOf(b, n, p, l)
  {
    if HasLine(b, n, p) { LookupIsLast(b.lineIds, b.items[n].lineIds[p]); }
  }

  /** Each item has lines of the block, its marker matches the first of them, and it has an
   *  ordinal exactly when it is ordered. */
  predicate ItemsAreMarked(b: Block, test: MarkerTest) {
    forall n :: 0 <= n < |b.items| ==>
      && b.items[n].lineIds != []
      && (forall p :: 0 <= p < |b.items[n].lineIds| ==> HasLine(b, n, p))
      && (b.items[n].ordered <==> b.items[n].ordinal)
      && test(n, LineOf(b, n, 0))
  }

  /** The lines of an item, and the first lines of all items, are in source order, and no
   *  line is used twice. */
  ghost predicate LinesAreOrdered(b: Block) {
    && (forall n, p, q :: p < q && HasLine(b, n, p) && HasLine(b, n, q) ==> LineOf(b, n, p) < LineOf(b, n, q))
    && (forall n, m :: n < m && HasLine(b, n, 0) && HasLine(b, m, 0) ==> LineOf(b, n, 0) < LineOf(b, m, 0))
    && (forall n, p, m, q :: HasLine(b, n, p) && HasLine(b, m, q) && (n != m || p != q) ==>
          LineOf(b, n, p) != LineOf(b, m, q))
  }

  /** The groups come in order, and the first item of each is at level zero. */
  predicate GroupsAreOrdered(b: Block) {
    && (forall n, m :: 0 <= n < m < |b.items| ==> b.items[n].group <= b.items[m].group)
    && (forall n :: 0 <= n < |b.items| && (forall m :: 0 <= m < n ==> b.items[m].group != b.items[n].group) ==>
          b.items[n].level == 0)
  }

  lemma ListedGroups(b: Block, test: MarkerTest)
    requires Listed(b, test)
    ensures GroupsAreOrdered(b)
  {
    forall n, m | 0 <= n < m < |b.items| ensures b.items[n].group <= b.items[m].group {
      StartsAreOrdered(b, test, n, m);
    }
    forall n | 0 <= n < |b.items| && (forall m :: 0 <= m < n ==> b.items[m].group != b.items[n].group)
      ensures b.items[n].level == 0
    {
      assert ItemOk(b, test, n);
      assert n > 0 ==> b.items[n - 1].group != b.items[n].group;
    }
  }

  lemma ListedMarks(b: Block, test: MarkerTest)
    requires Listed(b, test)
    ensures ItemsAreMarked(b, test)
  {
    forall n | 0 <= n < |b.items|
      ensures b.items[n].lineIds != [] && (b.items[n].ordered <==> b.items[n].ordinal)
      ensures forall p :: 0 <= p < |b.items[n].lineIds| ==> HasLine(b, n, p)
      ensures test(n, LineOf(b, n, 0))
    {
      assert ItemOk(b, test, n);
    }
  }

  lemma ListedLines(b: Block, test: MarkerTest)
    requires Listed(b, test)
    ensures LinesAreOrdered(b)
  {
    forall n, p, q | p < q && HasLine(b, n, p) && HasLine(b, n, q) ensures LineOf(b, n, p) < LineOf(b, n, q) {
      assert ItemOk(b, test, n);
    }
    forall n, m | n < m && HasLine(b, n, 0) && HasLine(b, m, 0) ensures LineOf(b, n, 0) < LineOf(b, m, 0) {
      StartsAreOrdered(b, test, n, m);
    }
  }

  lemma OrderedGroupsOk(b: Block, n: nat)
    requires GroupsAreOrdered(b) && n < |b.items|
    ensures GroupOk(b, n)
  {
    if n > 0 && b.items[n].group != b.items[n - 1].group {
      forall m | 0 <= m < n ensures b.items[m].group != b.items[n].group {
        assert b.items[m].group <= b.items[n - 1].group;
      }
    }
  }

  lemma LinesMakeListed(b: Block, test: MarkerTest)
    requires ItemsAreMarked(b, test) && LinesAreOrdered(b) && GroupsAreOrdered(b)
    ensures Listed(b, test)
  {
    forall n | 0 <= n < |b.items| ensures ItemOk(b, test, n) {
      OrderedGroupsOk(b, n);
      assert HasLine(b, n, 0);
    }
  }

  /** The first pass, which looks at each item against the one before it, accepts exactly
   *  the lists that are marked, in order and free of repetition as a whole. */
  lemma ListedIff(b: Block, test: MarkerTest)
    ensures Listed(b, test) <==> ItemsAreMarked(b, test) && LinesAreOrdered(b) && GroupsAreOrdered(b)
  {
    if Listed(b, test) {
      ListedGroups(b, test);
      ListedMarks(b, test);
      ListedLines(b, test);
    }
    if ItemsAreMarked(b, test) && LinesAreOrdered(b) && GroupsAreOrdered(b) {
      LinesMakeListed(b, test);
    }
  }

  /** The whole check: a block without items is accepted; any other must be body text
   *  without a table, list its items in order, and lay them out as an ordered forest whose
   *  children are one level below their parent and whose groups are not interrupted. */
  lemma ValidIff(b: Block, test: MarkerTest)
    ensures Valid(b, test) <==>
              || b.items == []
              || (&& b.isText && !b.hasTable
                  && ItemsAreMarked(b, test) && LinesAreOrdered(b) && GroupsAreOrdered(b)
                  && exists f :: FitsForest(Shape(b), f) && Layout(f) == Owners(b))
  {
    ListedIff(b, test);
    if b.items != [] && b.isText && !b.hasTable && Listed(b, test) {
      ValidIffForest(b, test);
    }
  }
}
