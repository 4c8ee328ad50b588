/** What the accepted forests mean for the lines of a block. */
module ListSpans {
  import opened Wrappers
  import opened ListForest

  function Starts(owners: seq<Option<Owner>>): nat {
    if owners == [] then 0
    else
      var n := |owners| - 1;
      Starts(owners[..n]) + if owners[n].Some? && owners[n].value.part == 0 then 1 else 0
  }

  /** Items begin in the order of their numbers. */
  ghost predicate InOrder(owners: seq<Option<Owner>>) {
    forall l :: 0 <= l < |owners| && owners[l].Some? && owners[l].value.part == 0 ==>
      owners[l].value.item == Starts(owners[..l])
  }

  ghost predicate SortedGroups(items: seq<Item>) {
    forall a, b :: 0 <= a < b < |items| ==> items[a].group <= items[b].group
  }

  /** `j` is `i` or one of its descendants: in item order, everything from after
   *  `i` up to `j` is deeper and of the same group. */
  ghost predicate Under(items: seq<Item>, i: nat, j: nat) {
    && i <= j < |items|
    && forall m :: i < m <= j ==> items[m].level > items[i].level && items[m].group == items[i].group
  }

  /** The annotation of one block, accepted by the replay. */
  ghost predicate Accepted(items: seq<Item>, owners: seq<Option<Owner>>) {
    && Known(items, owners) && InOrder(owners) && SortedGroups(items)
    && Run(items, INITIAL, owners).Success?
  }

  ghost predicate Stacked(items: seq<Item>, s: State, started: nat) {
    && started <= |items|
    && (if started == 0 then s.path == [] else s.group == Some(items[started - 1].group))
    && forall k :: 0 <= k < |s.path| ==>
         && s.path[k].item < started
         && items[s.path[k].item].level == k
         && forall m :: s.path[k].item <= m < started ==>
              items[m].group == items[s.path[k].item].group
              && (m > s.path[k].item ==> items[m].level > k)
  }

  lemma PathGroups(items: seq<Item>, s: State)
    requires Consistent(items, s)
    ensures forall k :: 0 <= k < |s.path| ==>
              s.path[k].item < |items| && items[s.path[k].item] == Item(k, s.group.value)
  {
    forall k | 0 <= k < |s.path|
      ensures s.path[k].item < |items| && items[s.path[k].item] == Item(k, s.group.value)
    {
      assert Fits(items, s.path[k], k, s.group.value);
    }
  }

  lemma StartStacked(items: seq<Item>, s: State, started: nat)
    requires Consistent(items, s) && Stacked(items, s, started) && started < |items|
    requires StepStart(items, s, started).Success?
    ensures var t := StepStart(items, s, started).value;
            && Stacked(items, t, started + 1)
            && t.path != [] && t.path[|t.path| - 1].item == started
            && (forall k :: 0 <= k < |t.path| - 1 ==> k < |s.path| && t.path[k].item == s.path[k].item)
  {
    PathGroups(items, s);
  }

  lemma MoreStacked(items: seq<Item>, s: State, started: nat, i: nat)
    requires Consistent(items, s) && Stacked(items, s, started) && StepMore(s, i).Success?
    ensures var t := StepMore(s, i).value;
            && Stacked(items, t, started)
            && t.path != [] && t.path[|t.path| - 1].item == i
            && (forall k :: 0 <= k < |t.path| ==> k < |s.path| && t.path[k].item == s.path[k].item)
  {
  }

  lemma StepStacked(items: seq<Item>, s: State, started: nat, owner: Option<Owner>)
    requires Consistent(items, s) && Stacked(items, s, started)
    requires owner.Some? ==> owner.value.item < |items|
    requires owner.Some? && owner.value.part == 0 ==> owner.value.item == started
    requires Step(items, s, owner).Success?
    ensures var t := Step(items, s, owner).value;
            var starts := owner.Some? && owner.value.part == 0;
            && Stacked(items, t, if starts then started + 1 else started)
            && (owner.Some? ==> t.path != [] && t.path[|t.path| - 1].item == owner.value.item)
            && (owner.None? ==> t.path == [])
            && (forall k :: 0 <= k < |t.path| && t.path[k].item < started ==>
                  k < |s.path| && t.path[k].item == s.path[k].item)
  {
    if owner.Some? && owner.value.part == 0 {
      StartStacked(items, s, started);
    } else if owner.Some? {
      MoreStacked(items, s, started, owner.value.item);
    }
  }

  /** The state after the first `l` lines. */
  ghost function At(items: seq<Item>, owners: seq<Option<Owner>>, l: nat): (s: State)
    requires Accepted(items, owners) && l <= |owners|
    ensures Run(items, INITIAL, owners[..l]) == Success(s)
  {
    PrefixRuns(items, owners, l);
    Run(items, INITIAL, owners[..l]).value
  }

  lemma {:induction false} PrefixRuns(items: seq<Item>, owners: seq<Option<Owner>>, l: nat)
    requires Known(items, owners) && Run(items, INITIAL, owners).Success? && l <= |owners|
    ensures Run(items, INITIAL, owners[..l]).Success?
  {
    if l < |owners| {
      var n := |owners| - 1;
      PrefixRuns(items, owners[..n], l);
      assert owners[..n][..l] == owners[..l];
    } else {
      assert owners[..l] == owners;
    }
  }

  lemma AtStep(items: seq<Item>, owners: seq<Option<Owner>>, l: nat)
    requires Accepted(items, owners) && l < |owners|
    ensures Step(items, At(items, owners, l), owners[l]) == Success(At(items, owners, l + 1))
  {
    assert owners[..l + 1][..l] == owners[..l];
  }

  lemma {:induction false} AtStacked(items: seq<Item>, owners: seq<Option<Owner>>, l: nat)
    requires Accepted(items, owners) && l <= |owners|
    ensures Consistent(items, At(items, owners, l))
    ensures Stacked(items, At(items, owners, l), Starts(owners[..l]))
  {
    if l > 0 {
      AtStacked(items, owners, l - 1);
      AtStep(items, owners, l - 1);
      var s := At(items, owners, l - 1);
      StepConsistent(items, s, owners[l - 1]);
      StepStacked(items, s, Starts(owners[..l - 1]), owners[l - 1]);
      assert owners[..l][..l - 1] == owners[..l - 1];
    }
  }

  ghost predicate IsActive(s: State, i: nat) {
    exists k :: 0 <= k < |s.path| && s.path[k].item == i
  }

  /** Right after its line, an item is on top of the stack. */
  lemma OwnerIsTop(items: seq<Item>, owners: seq<Option<Owner>>, l: nat)
    requires Accepted(items, owners) && l < |owners|
    ensures var s := At(items, owners, l + 1);
            && (owners[l].Some? <==> s.path != [])
            && (owners[l].Some? ==>
                  s.path[|s.path| - 1].item == owners[l].value.item && IsActive(s, owners[l].value.item)
                  && owners[l].value.item < Starts(owners[..l + 1]))
  {
    AtStacked(items, owners, l);
    AtStacked(items, owners, l + 1);
    AtStep(items, owners, l);
    StepStacked(items, At(items, owners, l), Starts(owners[..l]), owners[l]);
  }

  lemma {:induction false} StartsGrow(owners: seq<Option<Owner>>, a: nat, b: nat)
    requires a <= b <= |owners|
    ensures Starts(owners[..a]) <= Starts(owners[..b])
  {
    if a < b {
      StartsGrow(owners, a, b - 1);
      assert owners[..b][..b - 1] == owners[..b - 1];
    }
  }

  lemma ActiveBefore(items: seq<Item>, s: State, started: nat, owner: Option<Owner>, i: nat)
    requires Consistent(items, s) && Stacked(items, s, started)
    requires owner.Some? ==> owner.value.item < |items|
    requires owner.Some? && owner.value.part == 0 ==> owner.value.item == started
    requires Step(items, s, owner).Success? && i < started
    requires IsActive(Step(items, s, owner).value, i)
    ensures IsActive(s, i)
  {
    StepStacked(items, s, started, owner);
  }

  lemma ActiveOneBefore(items: seq<Item>, owners: seq<Option<Owner>>, i: nat, l: nat)
    requires Accepted(items, owners) && l < |owners|
    requires i < Starts(owners[..l]) && IsActive(At(items, owners, l + 1), i)
    ensures IsActive(At(items, owners, l), i)
  {
    AtStacked(items, owners, l);
    AtStep(items, owners, l);
    ActiveBefore(items, At(items, owners, l), Starts(owners[..l]), owners[l], i);
  }

  /** An item that is active at a later line was active ever since it started. */
  lemma {:induction false} StaysActive(items: seq<Item>, owners: seq<Option<Owner>>, i: nat, l: nat, end: nat)
    requires Accepted(items, owners) && l <= end <= |owners|
    requires i < Starts(owners[..l]) && IsActive(At(items, owners, end), i)
    ensures IsActive(At(items, owners, l), i)
    decreases end - l
  {
    if l < end {
      StartsGrow(owners, l, l + 1);
      StaysActive(items, owners, i, l + 1, end);
      ActiveOneBefore(items, owners, i, l);
    }
  }

  /** Every line from an item's first to its last line belongs to the item or to
   *  one of its descendants. */
  lemma SpanIsFamily(items: seq<Item>, owners: seq<Option<Owner>>, i: nat, first: nat, l: nat, last: nat)
    requires Accepted(items, owners) && first <= l <= last < |owners|
    requires owners[first].Some? && owners[first].value.item == i
    requires owners[last].Some? && owners[last].value.item == i
    ensures owners[l].Some? && Under(items, i, owners[l].value.item)
  {
    OwnerIsTop(items, owners, first);
    OwnerIsTop(items, owners, last);
    OwnerIsTop(items, owners, l);
    StartsGrow(owners, first + 1, l + 1);
    StaysActive(items, owners, i, l + 1, last + 1);
    AtStacked(items, owners, l + 1);
    ActiveIsAbove(items, At(items, owners, l + 1), Starts(owners[..l + 1]), i);
  }

  lemma ActiveIsAbove(items: seq<Item>, s: State, started: nat, i: nat)
    requires Consistent(items, s) && Stacked(items, s, started) && IsActive(s, i)
    ensures s.path != [] && (s.path[|s.path| - 1].item < started ==> Under(items, i, s.path[|s.path| - 1].item))
  {
    PathGroups(items, s);
    var k :| 0 <= k < |s.path| && s.path[k].item == i;
    var top := s.path[|s.path| - 1].item;
    assert items[top].level == |s.path| - 1 >= k == items[i].level;
    assert i <= top;
  }

  /** The spans of two items are nested or disjoint: if the later item owns a line
   *  inside the span of the earlier one, its whole span is inside it. */
  lemma SpansNest(items: seq<Item>, owners: seq<Option<Owner>>, i: nat, j: nat,
                  firstI: nat, lastI: nat, firstJ: nat, l: nat)
    requires Accepted(items, owners) && i < j
    requires firstI <= firstJ <= lastI < |owners| && firstJ <= l < |owners|
    requires owners[firstI].Some? && owners[firstI].value.item == i
    requires owners[lastI].Some? && owners[lastI].value.item == i
    requires owners[firstJ].Some? && owners[firstJ].value.item == j
    requires owners[l].Some? && owners[l].value.item == j
    ensures l <= lastI
  {
    if l > lastI {
      SpanIsFamily(items, owners, j, firstJ, lastI, l);
    }
  }

  /** Each group is one unbroken run of owned lines. */
  lemma {:induction false} GroupIsOneRun(items: seq<Item>, owners: seq<Option<Owner>>, first: nat, l: nat, last: nat)
    requires Accepted(items, owners) && first <= l <= last < |owners|
    requires owners[first].Some? && owners[last].Some?
    requires items[owners[first].value.item].group == items[owners[last].value.item].group
    ensures owners[l].Some? && items[owners[l].value.item].group == items[owners[last].value.item].group
    decreases last
  {
    if l < last {
      GroupBefore(items, owners, first, last);
      GroupIsOneRun(items, owners, first, l, last - 1);
    }
  }

  lemma HasBegun(items: seq<Item>, owners: seq<Option<Owner>>, l: nat, end: nat)
    requires Accepted(items, owners) && l < end <= |owners| && owners[l].Some?
    ensures owners[l].value.item < Starts(owners[..end])
  {
    OwnerIsTop(items, owners, l);
    StartsGrow(owners, l + 1, end);
  }

  /** The line before a line of an already open group is of that group. */
  lemma GroupBefore(items: seq<Item>, owners: seq<Option<Owner>>, first: nat, last: nat)
    requires Accepted(items, owners) && first < last < |owners|
    requires owners[first].Some? && owners[last].Some?
    requires items[owners[first].value.item].group == items[owners[last].value.item].group
    ensures owners[last - 1].Some?
    ensures items[owners[last - 1].value.item].group == items[owners[last].value.item].group
  {
    HasBegun(items, owners, first, last);
    AtStacked(items, owners, last);
    AtStep(items, owners, last);
    OwnerIsTop(items, owners, last - 1);
    SameGroupBefore(items, At(items, owners, last), Starts(owners[..last]), owners[last].value,
                    owners[first].value.item);
  }

  lemma SameGroupBefore(items: seq<Item>, s: State, started: nat, owner: Owner, earlier: nat)
    requires Consistent(items, s) && Stacked(items, s, started) && SortedGroups(items)
    requires owner.item < |items| && Step(items, s, Some(owner)).Success?
    requires owner.part == 0 ==> owner.item == started
    requires earlier < started && items[earlier].group == items[owner.item].group
    ensures s.path != []
    ensures items[s.path[|s.path| - 1].item].group == items[owner.item].group
  {
    PathGroups(items, s);
    if owner.part == 0 {
      assert items[earlier].group <= items[started - 1].group <= items[owner.item].group;
    }
  }

  /** Every item at level k > 0 starts under an active parent at level k - 1. */
  lemma ParentIsActive(items: seq<Item>, owners: seq<Option<Owner>>, l: nat)
    requires Accepted(items, owners) && l < |owners|
    requires owners[l].Some? && owners[l].value.part == 0 && items[owners[l].value.item].level > 0
    ensures exists i: nat ::
              && i < |items| && IsActive(At(items, owners, l), i)
              && items[i].level == items[owners[l].value.item].level - 1
              && Under(items, i, owners[l].value.item)
  {
    var j := owners[l].value.item;
    AtStacked(items, owners, l);
    AtStep(items, owners, l);
    var s := At(items, owners, l);
    ParentOnStack(items, s, Starts(owners[..l]));
  }

  lemma ParentOnStack(items: seq<Item>, s: State, started: nat)
    requires Consistent(items, s) && Stacked(items, s, started) && started < |items|
    requires StepStart(items, s, started).Success? && items[started].level > 0
    ensures exists i: nat ::
              && i < |items| && IsActive(s, i)
              && items[i].level == items[started].level - 1 && Under(items, i, started)
  {
    PathGroups(items, s);
    var i := s.path[items[started].level - 1].item;
    assert IsActive(s, i);
    assert Under(items, i, started);
  }
}
