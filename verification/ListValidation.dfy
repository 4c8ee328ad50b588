/** `validate_block_lists` of crates/core/src/validate.rs. */
module ListValidation {
  import opened Wrappers
  import opened ListForest
  import opened ListSpans

  /** A stored list item; `ordinal` tells whether it has one. */
  datatype ListItem = ListItem(level: nat, group: nat, ordered: bool, ordinal: bool, lineIds: seq<string>)

  datatype Block = Block(isText: bool, hasTable: bool, lineIds: seq<string>, items: seq<ListItem>)

  /** Whether an item's marker prefix matches the text of a source line; the text
   *  rules themselves are not part of this model. */
  type MarkerTest = (nat, nat) -> bool

  /** The line that carries an id; a repeated id means its last line. */
  function Lookup(lineIds: seq<string>): (m: map<string, nat>)
    ensures forall id :: id in m <==> id in lineIds
    ensures forall id :: id in m ==> m[id] < |lineIds| && lineIds[m[id]] == id
  {
    if lineIds == [] then map[]
    else
      var n := |lineIds| - 1;
      assert lineIds == lineIds[..n] + [lineIds[n]];
      Lookup(lineIds[..n])[lineIds[n] := n]
  }

  /** The `p`-th line of the `n`-th item. */
  predicate HasLine(b: Block, n: nat, p: nat) {
    n < |b.items| && p < |b.items[n].lineIds| && b.items[n].lineIds[p] in Lookup(b.lineIds)
  }

  function LineOf(b: Block, n: nat, p: nat): (l: nat)
    requires HasLine(b, n, p)
    ensures l < |b.lineIds|
  {
    Lookup(b.lineIds)[b.items[n].lineIds[p]]
  }

  function Shape(b: Block): (items: seq<Item>)
    ensures |items| == |b.items|
    ensures forall n :: 0 <= n < |items| ==> items[n] == Item(b.items[n].level, b.items[n].group)
  {
    seq(|b.items|, n requires 0 <= n < |b.items| => Item(b.items[n].level, b.items[n].group))
  }

  /** A group starts at level 0 and after every earlier group. */
  ghost predicate GroupOk(b: Block, n: nat)
    requires n < |b.items|
  {
    (n == 0 ==> b.items[n].level == 0)
    && (n > 0 && b.items[n].group != b.items[n - 1].group ==>
          b.items[n].level == 0 && b.items[n].group > b.items[n - 1].group)
  }

  /** The lines of an item are lines of the block, in source order. */
  ghost predicate LinesOk(b: Block, n: nat)
    requires n < |b.items|
  {
    && b.items[n].lineIds != []
    && (forall p :: 0 <= p < |b.items[n].lineIds| ==> HasLine(b, n, p))
    && (forall p, q :: 0 <= p < q < |b.items[n].lineIds| ==> LineOf(b, n, p) < LineOf(b, n, q))
  }

  ghost predicate ItemOk(b: Block, test: MarkerTest, n: nat)
    requires n < |b.items|
  {
    && GroupOk(b, n) && LinesOk(b, n)
    && b.items[n].ordered == b.items[n].ordinal
    && test(n, LineOf(b, n, 0))
    && (n > 0 && HasLine(b, n - 1, 0) ==> LineOf(b, n - 1, 0) < LineOf(b, n, 0))
  }

  /** No line belongs to two parts. */
  ghost predicate Unique(b: Block) {
    forall n, p, m, q :: HasLine(b, n, p) && HasLine(b, m, q) && LineOf(b, n, p) == LineOf(b, m, q) ==>
      n == m && p == q
  }

  ghost predicate Listed(b: Block, test: MarkerTest) {
    Unique(b) && forall n :: 0 <= n < |b.items| ==> ItemOk(b, test, n)
  }

  /** The owner of every line. */
  ghost function Owners(b: Block): (owners: seq<Option<Owner>>)
    ensures |owners| == |b.lineIds|
  {
    seq(|b.lineIds|, l requires 0 <= l < |b.lineIds| => OwnerAt(b, l))
  }

  ghost function OwnerAt(b: Block, l: nat): Option<Owner> {
    if exists n, p :: HasLine(b, n, p) && LineOf(b, n, p) == l
    then var n, p :| HasLine(b, n, p) && LineOf(b, n, p) == l; Some(Owner(n, p))
    else None
  }

  lemma OwnersKnown(b: Block)
    ensures Known(Shape(b), Owners(b))
    ensures forall l :: 0 <= l < |b.lineIds| && Owners(b)[l].Some? ==>
              var Owner(n, p) := Owners(b)[l].value;
              HasLine(b, n, p) && LineOf(b, n, p) == l
  {
  }

  lemma OwnerOf(b: Block, n: nat, p: nat)
    requires Unique(b) && HasLine(b, n, p)
    ensures Owners(b)[LineOf(b, n, p)] == Some(Owner(n, p))
  {
    assert OwnerAt(b, LineOf(b, n, p)).Some?;
  }

  /** What the source accepts. */
  ghost predicate Valid(b: Block, test: MarkerTest) {
    b.items == [] || (
      && b.isText && !b.hasTable && Listed(b, test)
      && Known(Shape(b), Owners(b)) && Run(Shape(b), INITIAL, Owners(b)).Success?)
  }

  // ----- what the checks of the first pass establish -----

  lemma {:induction false} StartsAreOrdered(b: Block, test: MarkerTest, n: nat, m: nat)
    requires Listed(b, test) && n <= m < |b.items|
    ensures HasLine(b, n, 0) && HasLine(b, m, 0)
    ensures LineOf(b, n, 0) <= LineOf(b, m, 0)
    ensures n < m ==> LineOf(b, n, 0) < LineOf(b, m, 0)
    ensures b.items[n].group <= b.items[m].group
    decreases m - n
  {
    assert ItemOk(b, test, m);
    if n < m {
      assert ItemOk(b, test, m - 1);
      StartsAreOrdered(b, test, n, m - 1);
    }
  }

  /** Before line `l`, item `n` owns exactly its parts below `Count`. */
  lemma {:induction false} PartsBefore(b: Block, test: MarkerTest, l: nat, n: nat)
    requires Listed(b, test) && l <= |b.lineIds| && n < |b.items|
    ensures forall p :: 0 <= p < |b.items[n].lineIds| ==>
              HasLine(b, n, p) && (LineOf(b, n, p) < l <==> p < Count(Owners(b)[..l], n))
  {
    assert ItemOk(b, test, n);
    if l > 0 {
      PartsBefore(b, test, l - 1, n);
      var owners := Owners(b);
      assert owners[..l][..l - 1] == owners[..l - 1];
      PartsAt(b, n, l - 1, Count(owners[..l - 1], n));
    }
  }

  /** If line `l` belongs to item `n`, it is the next of its lines. */
  lemma PartsAt(b: Block, n: nat, l: nat, c: nat)
    requires Unique(b) && n < |b.items| && LinesOk(b, n) && l < |b.lineIds|
    requires forall p :: 0 <= p < |b.items[n].lineIds| ==> (LineOf(b, n, p) < l <==> p < c)
    ensures var mine := Owners(b)[l].Some? && Owners(b)[l].value.item == n;
            && (mine ==> Owners(b)[l].value.part == c)
            && forall p :: 0 <= p < |b.items[n].lineIds| ==>
                 (LineOf(b, n, p) < l + 1 <==> p < if mine then c + 1 else c)
  {
    OwnersKnown(b);
    if Owners(b)[l].Some? && Owners(b)[l].value.item == n {
      var q := Owners(b)[l].value.part;
      var p := if c < q then c else q;
      assert LineOf(b, n, p) <= LineOf(b, n, q);
    } else {
      forall p | 0 <= p < |b.items[n].lineIds| ensures LineOf(b, n, p) != l {
        OwnerOf(b, n, p);
      }
    }
  }

  /** Before line `l`, exactly the items below `Starts` have begun. */
  lemma {:induction false} ItemsBefore(b: Block, test: MarkerTest, l: nat)
    requires Listed(b, test) && l <= |b.lineIds|
    ensures forall n :: 0 <= n < |b.items| ==>
              HasLine(b, n, 0) && (LineOf(b, n, 0) < l <==> n < Starts(Owners(b)[..l]))
    ensures Starts(Owners(b)[..l]) <= |b.items|
  {
    OwnersKnown(b);
    forall n | 0 <= n < |b.items| ensures HasLine(b, n, 0) { assert ItemOk(b, test, n); }
    if l > 0 {
      ItemsBefore(b, test, l - 1);
      var owners := Owners(b);
      assert owners[..l][..l - 1] == owners[..l - 1];
      var c := Starts(owners[..l - 1]);
      if owners[l - 1].Some? && owners[l - 1].value.part == 0 {
        var q := owners[l - 1].value.item;
        assert LineOf(b, q, 0) == l - 1;
        StartsAreOrdered(b, test, if c < q then c else q, q);
        assert q == c;
        forall n | 0 <= n < |b.items| && n != c ensures LineOf(b, n, 0) != l - 1 {
        }
      } else {
        forall n | 0 <= n < |b.items| ensures LineOf(b, n, 0) != l - 1 {
          OwnerOf(b, n, 0);
        }
      }
    }
  }

  lemma ListedOwners(b: Block, test: MarkerTest)
    requires Listed(b, test)
    ensures Known(Shape(b), Owners(b)) && SortedGroups(Shape(b))
    ensures Numbered(Owners(b)) && InOrder(Owners(b))
  {
    OwnersKnown(b);
    var owners := Owners(b);
    forall m, n | 0 <= m < n < |b.items| ensures Shape(b)[m].group <= Shape(b)[n].group {
      StartsAreOrdered(b, test, m, n);
    }
    forall l | 0 <= l < |owners| && owners[l].Some?
      ensures owners[l].value.part == Count(owners[..l], owners[l].value.item)
      ensures owners[l].value.part == 0 ==> owners[l].value.item == Starts(owners[..l])
    {
      var Owner(n, p) := owners[l].value;
      PartsBefore(b, test, l, n);
      PartsBefore(b, test, l + 1, n);
      assert owners[..l + 1][..l] == owners[..l];
      if p == 0 {
        ItemsBefore(b, test, l);
        ItemsBefore(b, test, l + 1);
      }
    }
  }

  /** Among annotations that pass the first pass, the accepted ones are exactly
   *  the layouts of ordered forests. */
  lemma ValidIffForest(b: Block, test: MarkerTest)
    requires b.items != [] && b.isText && !b.hasTable && Listed(b, test)
    ensures Valid(b, test) <==> exists f :: FitsForest(Shape(b), f) && Layout(f) == Owners(b)
  {
    ListedOwners(b, test);
    if Valid(b, test) {
      AcceptedIsForest(Shape(b), Owners(b));
    }
    if f :| FitsForest(Shape(b), f) && Layout(f) == Owners(b) {
      ForestIsAccepted(Shape(b), f);
    }
  }

  /** An accepted annotation meets the hypotheses of every lemma of `ListSpans`. */
  lemma ValidIsAccepted(b: Block, test: MarkerTest)
    requires Valid(b, test) && b.items != []
    ensures Accepted(Shape(b), Owners(b))
  {
    ListedOwners(b, test);
  }

  // ----- the two passes as the source runs them -----

  method BuildIndex(lineIds: seq<string>) returns (lines: map<string, nat>)
    ensures lines == Lookup(lineIds)
  {
    lines := map[];
    var index := 0;
    assert lineIds[..0] == [];
    while index < |lineIds|
      invariant 0 <= index <= |lineIds|
      invariant lines == Lookup(lineIds[..index])
    {
      assert lineIds[..index + 1][..index] == lineIds[..index];
      lines := lines[lineIds[index] := index];
      index := index + 1;
    }
    assert lineIds[..index] == lineIds;
  }

  /** The part `(m, q)` comes before the part `(n, p)` in the item list. */
  ghost predicate Seen(b: Block, n: nat, p: nat, m: nat, q: nat) {
    HasLine(b, m, q) && (m < n || (m == n && q < p))
  }

  /** `owners` names the parts before `(n, p)`, and nothing else. */
  ghost predicate Claimed(b: Block, owners: seq<Option<Owner>>, n: nat, p: nat) {
    && |owners| == |b.lineIds|
    && (forall m, q :: Seen(b, n, p, m, q) ==> owners[LineOf(b, m, q)] == Some(Owner(m, q)))
    && (forall l :: 0 <= l < |owners| && owners[l].Some? ==>
          && Seen(b, n, p, owners[l].value.item, owners[l].value.part)
          && LineOf(b, owners[l].value.item, owners[l].value.part) == l)
  }

  ghost predicate StartOk(b: Block, n: nat) {
    n > 0 && HasLine(b, n - 1, 0) && HasLine(b, n, 0) ==> LineOf(b, n - 1, 0) < LineOf(b, n, 0)
  }

  lemma ClaimOne(b: Block, owners: seq<Option<Owner>>, n: nat, p: nat)
    requires Claimed(b, owners, n, p) && HasLine(b, n, p) && owners[LineOf(b, n, p)] == None
    ensures Claimed(b, owners[LineOf(b, n, p) := Some(Owner(n, p))], n, p + 1)
  {
  }

  lemma ClaimTaken(b: Block, owners: seq<Option<Owner>>, n: nat, p: nat)
    requires Claimed(b, owners, n, p) && HasLine(b, n, p) && owners[LineOf(b, n, p)].Some?
    ensures !Unique(b)
  {
  }

  lemma ClaimedAll(b: Block, owners: seq<Option<Owner>>)
    requires Claimed(b, owners, |b.items|, 0)
    ensures Unique(b) && owners == Owners(b)
  {
    forall n, p, m, q | HasLine(b, n, p) && HasLine(b, m, q) && LineOf(b, n, p) == LineOf(b, m, q)
      ensures n == m && p == q
    {
      assert Seen(b, |b.items|, 0, n, p) && Seen(b, |b.items|, 0, m, q);
    }
    OwnersKnown(b);
    forall l | 0 <= l < |owners| ensures owners[l] == Owners(b)[l] {
      if owners[l].Some? {
        OwnerOf(b, owners[l].value.item, owners[l].value.part);
      } else if Owners(b)[l].Some? {
        assert Seen(b, |b.items|, 0, Owners(b)[l].value.item, Owners(b)[l].value.part);
      }
    }
  }

  /** The first `part` lines of item `n` are lines of the block, in source order. */
  ghost predicate LinesUpTo(b: Block, n: nat, part: nat)
    requires n < |b.items|
  {
    && part <= |b.items[n].lineIds|
    && (forall p :: 0 <= p < part ==> HasLine(b, n, p))
    && (forall p, q :: 0 <= p < q < part ==> LineOf(b, n, p) < LineOf(b, n, q))
  }

  lemma LinesExtend(b: Block, n: nat, part: nat)
    requires n < |b.items| && LinesUpTo(b, n, part) && HasLine(b, n, part)
    requires part > 0 ==> LineOf(b, n, part - 1) < LineOf(b, n, part)
    ensures LinesUpTo(b, n, part + 1)
  {
  }

  lemma LinesComplete(b: Block, n: nat)
    requires n < |b.items| && b.items[n].lineIds != [] && LinesUpTo(b, n, |b.items[n].lineIds|)
    ensures LinesOk(b, n)
  {
  }

  lemma ClaimEnd(b: Block, owners: seq<Option<Owner>>, n: nat)
    requires n < |b.items| && Claimed(b, owners, n, |b.items[n].lineIds|)
    ensures Claimed(b, owners, n + 1, 0)
  {
  }

  /** The line of `n`'s first part, when there is one. */
  ghost function StartOf(b: Block, n: int): Option<nat> {
    if n >= 0 && HasLine(b, n, 0) then Some(LineOf(b, n, 0)) else None
  }

  /** One line of an item: known, in order and not yet owned, or the check fails. */
  method ClaimLine(b: Block, lines: map<string, nat>, owners: array<Option<Owner>>, n: nat, part: nat,
                   previousLine: Option<nat>, previousStart: Option<nat>)
    returns (ok: bool, index: nat)
    requires lines == Lookup(b.lineIds) && n < |b.items| && part < |b.items[n].lineIds|
    requires Claimed(b, owners[..], n, part) && LinesUpTo(b, n, part)
    requires previousLine == if part == 0 then None else Some(LineOf(b, n, part - 1))
    requires previousStart == StartOf(b, n - 1)
    modifies owners
    ensures !ok ==> !(Unique(b) && LinesOk(b, n) && StartOk(b, n))
    ensures ok ==> HasLine(b, n, part) && index == LineOf(b, n, part) && (part == 0 ==> StartOk(b, n))
    ensures ok ==> Claimed(b, owners[..], n, part + 1) && LinesUpTo(b, n, part + 1)
  {
    var ids := b.items[n].lineIds;
    if ids[part] !in lines {
      assert !HasLine(b, n, part);
      return false, 0;
    }
    index := lines[ids[part]];
    assert HasLine(b, n, part) && LineOf(b, n, part) == index;
    if (previousLine.Some? && index <= previousLine.value)
       || (part == 0 && previousStart.Some? && index <= previousStart.value) {
      return false, 0;
    }
    if owners[index].Some? {
      ClaimTaken(b, owners[..], n, part);
      return false, 0;
    }
    ghost var before := owners[..];
    ClaimOne(b, before, n, part);
    LinesExtend(b, n, part);
    owners[index] := Some(Owner(n, part));
    assert owners[..] == before[index := Some(Owner(n, part))];
    ok := true;
  }

  /** The loop over the lines of one item. */
  method ClaimLines(b: Block, lines: map<string, nat>, owners: array<Option<Owner>>, n: nat, previousStart: Option<nat>)
    returns (ok: bool, start: nat)
    requires lines == Lookup(b.lineIds) && n < |b.items| && b.items[n].lineIds != []
    requires Claimed(b, owners[..], n, 0)
    requires previousStart == StartOf(b, n - 1)
    modifies owners
    ensures !ok ==> !(Unique(b) && LinesOk(b, n) && StartOk(b, n))
    ensures ok ==> LinesOk(b, n) && StartOk(b, n) && Claimed(b, owners[..], n + 1, 0)
    ensures ok ==> start == LineOf(b, n, 0)
  {
    var ids := b.items[n].lineIds;
    var previousLine: Option<nat> := None;
    var part := 0;
    start := 0;
    while part < |ids|
      invariant 0 <= part <= |ids|
      invariant Claimed(b, owners[..], n, part)
      invariant LinesUpTo(b, n, part)
      invariant previousLine == if part == 0 then None else Some(LineOf(b, n, part - 1))
      invariant part > 0 ==> StartOk(b, n) && start == LineOf(b, n, 0)
    {
      var index;
      ok, index := ClaimLine(b, lines, owners, n, part, previousLine, previousStart);
      if !ok {
        return;
      }
      if part == 0 {
        start := index;
      }
      previousLine := Some(index);
      part := part + 1;
    }
    ClaimEnd(b, owners[..], n);
    LinesComplete(b, n);
    return true, start;
  }

  /** The checks on an item's group, marker and first line. */
  ghost predicate HeadOk(b: Block, test: MarkerTest, n: nat)
    requires n < |b.items|
  {
    && GroupOk(b, n) && b.items[n].ordered == b.items[n].ordinal
    && HasLine(b, n, 0) && test(n, LineOf(b, n, 0))
  }

  lemma ItemParts(b: Block, test: MarkerTest, n: nat)
    requires n < |b.items|
    ensures ItemOk(b, test, n) <==> HeadOk(b, test, n) && LinesOk(b, n) && StartOk(b, n)
  {
  }

  method CheckHead(b: Block, test: MarkerTest, lines: map<string, nat>, n: nat, previousGroup: Option<nat>)
    returns (ok: bool)
    requires lines == Lookup(b.lineIds) && n < |b.items|
    requires previousGroup == if n == 0 then None else Some(b.items[n - 1].group)
    ensures ok <==> HeadOk(b, test, n)
  {
    var item := b.items[n];
    if previousGroup != Some(item.group)
       && (item.level != 0 || (previousGroup.Some? && item.group <= previousGroup.value)) {
      return false;
    }
    if item.ordered != item.ordinal || item.lineIds == [] || item.lineIds[0] !in lines {
      return false;
    }
    assert HasLine(b, n, 0) && LineOf(b, n, 0) == lines[item.lineIds[0]];
    return test(n, lines[item.lineIds[0]]);
  }

  /** The pass over the items, which fills `owners`. */
  method ClaimItems(b: Block, test: MarkerTest, owners: array<Option<Owner>>) returns (ok: bool)
    requires owners.Length == |b.lineIds| && forall l :: 0 <= l < owners.Length ==> owners[l] == None
    modifies owners
    ensures ok <==> Listed(b, test)
    ensures ok ==> owners[..] == Owners(b)
  {
    var lines := BuildIndex(b.lineIds);
    var previousGroup: Option<nat> := None;
    var previousStart: Option<nat> := None;
    var n := 0;
    while n < |b.items|
      invariant 0 <= n <= |b.items|
      invariant Claimed(b, owners[..], n, 0)
      invariant forall m :: 0 <= m < n ==> ItemOk(b, test, m)
      invariant previousGroup == if n == 0 then None else Some(b.items[n - 1].group)
      invariant previousStart == StartOf(b, n - 1)
    {
      ItemParts(b, test, n);
      ok := CheckHead(b, test, lines, n, previousGroup);
      if !ok {
        return;
      }
      var start;
      ok, start := ClaimLines(b, lines, owners, n, previousStart);
      if !ok {
        return;
      }
      previousStart := Some(start);
      previousGroup := Some(b.items[n].group);
      n := n + 1;
    }
    ClaimedAll(b, owners[..]);
    ok := true;
  }

  lemma {:induction false} RunPrefix(items: seq<Item>, owners: seq<Option<Owner>>, l: nat)
    requires Known(items, owners) && l <= |owners| && Run(items, INITIAL, owners[..l]).Failure?
    ensures Run(items, INITIAL, owners).Failure?
  {
    if l < |owners| {
      var n := |owners| - 1;
      assert owners[..n][..l] == owners[..l];
      RunPrefix(items, owners[..n], l);
    } else {
      assert owners[..l] == owners;
    }
  }

  method FindActive(active: seq<nat>, item: nat) returns (level: Option<nat>)
    ensures level.Some? ==> level.value < |active| && active[level.value] == item
    ensures level.Some? ==> forall k :: 0 <= k < level.value ==> active[k] != item
    ensures level.None? ==> forall k :: 0 <= k < |active| ==> active[k] != item
  {
    var k := 0;
    while k < |active|
      invariant 0 <= k <= |active|
      invariant forall j :: 0 <= j < k ==> active[j] != item
    {
      if active[k] == item {
        return Some(k);
      }
      k := k + 1;
    }
    return None;
  }

  lemma {:induction false} PositionIsFirst(path: seq<Tree>, item: nat)
    ensures var r := Position(path, item);
            r.Some? ==> forall k :: 0 <= k < r.value ==> path[k].item != item
  {
    if path != [] {
      PositionIsFirst(path[..|path| - 1], item);
    }
  }

  lemma RunOne(items: seq<Item>, owners: seq<Option<Owner>>, l: nat)
    requires Known(items, owners) && l < |owners| && Run(items, INITIAL, owners[..l]).Success?
    ensures Known(items, owners[..l + 1])
    ensures Run(items, INITIAL, owners[..l + 1]) == Step(items, Run(items, INITIAL, owners[..l]).value, owners[l])
  {
    assert owners[..l + 1][..l] == owners[..l];
  }

  lemma StartOnStack(items: seq<Item>, s: State, n: nat)
    requires n < |items|
    ensures var active := if s.group != Some(items[n].group) then [] else s.Active();
            && (StepStart(items, s, n).Success? <==>
                  items[n].level <= |active| && (s.group == Some(items[n].group) ==> active != []))
            && (StepStart(items, s, n).Success? ==>
                  && StepStart(items, s, n).value.Active() == active[..items[n].level] + [n]
                  && StepStart(items, s, n).value.group == Some(items[n].group))
  {
  }

  lemma MoreOnStack(s: State, n: nat, level: Option<nat>)
    requires level.None? ==> forall k :: 0 <= k < |s.path| ==> s.Active()[k] != n
    requires level.Some? ==> level.value < |s.path| && s.Active()[level.value] == n
    requires level.Some? ==> forall k :: 0 <= k < level.value ==> s.Active()[k] != n
    ensures StepMore(s, n).Success? <==> level.Some?
    ensures level.Some? ==>
              && StepMore(s, n).value.Active() == s.Active()[..level.value + 1]
              && StepMore(s, n).value.group == s.group
  {
    var r := Position(s.path, n);
    PositionIsFirst(s.path, n);
    if r.Some? {
      assert s.Active()[r.value] == n;
    }
    if level.Some? {
      assert s.path[level.value].item == n;
      assert r == level;
    }
  }

  /** One line of the replay, on the stack of item indices alone. */
  method ReplayLine(b: Block, owner: Option<Owner>, active: seq<nat>, group: Option<nat>, ghost s: State)
    returns (ok: bool, stack: seq<nat>, current: Option<nat>)
    requires owner.Some? ==> owner.value.item < |b.items|
    requires active == s.Active() && group == s.group
    ensures ok <==> Step(Shape(b), s, owner).Success?
    ensures ok ==> stack == Step(Shape(b), s, owner).value.Active() && current == Step(Shape(b), s, owner).value.group
  {
    stack, current := active, group;
    if owner.None? {
      return true, [], group;
    }
    var n := owner.value.item;
    if owner.value.part == 0 {
      StartOnStack(Shape(b), s, n);
      if group != Some(b.items[n].group) {
        stack := [];
      } else if stack == [] {
        return false, stack, current;
      }
      if b.items[n].level > |stack| {
        return false, stack, current;
      }
      return true, stack[..b.items[n].level] + [n], Some(b.items[n].group);
    }
    var level := FindActive(active, n);
    MoreOnStack(s, n, level);
    if level.None? {
      return false, stack, current;
    }
    return true, active[..level.value + 1], group;
  }

  /** The pass over the lines, which keeps the active stack. */
  method Replay(b: Block, owners: seq<Option<Owner>>) returns (ok: bool)
    requires Known(Shape(b), owners)
    ensures ok <==> Run(Shape(b), INITIAL, owners).Success?
  {
    var active: seq<nat> := [];
    var group: Option<nat> := None;
    ghost var s := INITIAL;
    var l := 0;
    while l < |owners|
      invariant 0 <= l <= |owners|
      invariant Run(Shape(b), INITIAL, owners[..l]) == Success(s)
      invariant active == s.Active() && group == s.group
    {
      RunOne(Shape(b), owners, l);
      ok, active, group := ReplayLine(b, owners[l], active, group, s);
      if !ok {
        RunPrefix(Shape(b), owners, l + 1);
        return false;
      }
      s := Step(Shape(b), s, owners[l]).value;
      l := l + 1;
    }
    assert owners[..l] == owners;
    return true;
  }

  method Validate(b: Block, test: MarkerTest) returns (ok: bool)
    ensures ok <==> Valid(b, test)
  {
    if b.items == [] {
      return true;
    }
    if !b.isText || b.hasTable {
      return false;
    }
    var owners := new Option<Owner>[|b.lineIds|](_ => None);
    ok := ClaimItems(b, test, owners);
    if ok {
      OwnersKnown(b);
      ok := Replay(b, owners[..]);
    }
  }
}
