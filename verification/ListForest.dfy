/** The list replay of crates/core/src/validate.rs, and the forests it accepts.
 *
 *  A line of the block is owned by one part of one list item or by nobody. The
 *  replay keeps a stack of active items; here each stack entry also carries the
 *  tree read so far, so that accepting a block also recovers its forest.
 */
module ListForest {
  import opened Wrappers

  datatype Item = Item(level: nat, group: nat)

  datatype Owner = Owner(item: nat, part: nat)

  /** An item, and after its first line its further lines and its children. */
  datatype Tree = Tree(item: nat, body: seq<Piece>)

  datatype Piece = Line | Sub(tree: Tree)

  /** A block is made of unowned lines and of groups of top-level trees. */
  datatype Section = Prose | ListGroup(group: nat, trees: seq<Tree>)

  // ----- how a forest is laid out on lines -----

  function Lines(body: seq<Piece>): nat {
    if body == [] then 0
    else Lines(body[..|body| - 1]) + if body[|body| - 1].Line? then 1 else 0
  }

  function LayTree(t: Tree): (r: seq<Option<Owner>>)
    decreases t, 1
  {
    [Some(Owner(t.item, 0))] + LayBody(t.item, t.body)
  }

  function LayBody(item: nat, body: seq<Piece>): seq<Option<Owner>>
    decreases body, 0
  {
    if body == [] then []
    else
      var n := |body| - 1;
      LayBody(item, body[..n]) + LayPiece(item, 1 + Lines(body[..n]), body[n])
  }

  function LayPiece(item: nat, part: nat, p: Piece): seq<Option<Owner>>
    decreases p, 2
  {
    match p
    case Line => [Some(Owner(item, part))]
    case Sub(t) => LayTree(t)
  }

  function LayTrees(ts: seq<Tree>): seq<Option<Owner>> {
    if ts == [] then [] else LayTrees(ts[..|ts| - 1]) + LayTree(ts[|ts| - 1])
  }

  function Layout(f: seq<Section>): seq<Option<Owner>> {
    if f == [] then []
    else
      var n := |f| - 1;
      Layout(f[..n]) + match f[n]
                       case Prose => [None]
                       case ListGroup(_, ts) => LayTrees(ts)
  }

  // ----- which forests fit the items -----

  /** `t` is an item of this level and group, and its children are one level deeper. */
  predicate Fits(items: seq<Item>, t: Tree, level: nat, group: nat)
    decreases t
  {
    && t.item < |items| && items[t.item] == Item(level, group)
    && forall k :: 0 <= k < |t.body| && t.body[k].Sub? ==> Fits(items, t.body[k].tree, level + 1, group)
  }

  function LastGroup(f: seq<Section>): Option<nat> {
    if f == [] then None
    else if f[|f| - 1].ListGroup? then Some(f[|f| - 1].group)
    else LastGroup(f[..|f| - 1])
  }

  /** Groups are nonempty, made of level-0 trees, and never resumed. */
  predicate FitsForest(items: seq<Item>, f: seq<Section>) {
    f == [] ||
    (var n := |f| - 1;
     && FitsForest(items, f[..n])
     && (f[n].ListGroup? ==>
           && f[n].trees != []
           && LastGroup(f[..n]) != Some(f[n].group)
           && forall k :: 0 <= k < |f[n].trees| ==> Fits(items, f[n].trees[k], 0, f[n].group)))
  }

  // ----- the replay -----

  datatype State = State(done: seq<Section>, group: Option<nat>, trees: seq<Tree>, path: seq<Tree>)
  {
    /** The source's `active` stack. */
    function Active(): (r: seq<nat>)
      ensures |r| == |path|
    {
      seq(|path|, k requires 0 <= k < |path| => path[k].item)
    }

    /** Closes the current group, if one is open. */
    function Flush(): seq<Section> {
      if path == [] then done
      else done + [ListGroup(if group.Some? then group.value else 0, Close(trees, path, 0).0)]
    }
  }

  function Adopt(parent: Tree, child: Tree): Tree {
    parent.(body := parent.body + [Sub(child)])
  }

  /** Truncates the stack to `depth`: a tree that leaves it joins its parent. */
  function Close(trees: seq<Tree>, path: seq<Tree>, depth: nat): (r: (seq<Tree>, seq<Tree>))
    ensures |r.1| == if |path| <= depth then |path| else depth
    ensures forall k :: 0 <= k < |r.1| ==> r.1[k].item == path[k].item
    decreases |path|
  {
    var n := |path| - 1;
    if |path| <= depth then (trees, path)
    else if n == 0 then (trees + [path[0]], [])
    else Close(trees, path[..n][n - 1 := Adopt(path[n - 1], path[n])], depth)
  }

  function Position(path: seq<Tree>, item: nat): (r: Option<nat>)
    ensures r.Some? ==> r.value < |path| && path[r.value].item == item
    ensures r.None? ==> forall k :: 0 <= k < |path| ==> path[k].item != item
  {
    if path == [] then None
    else
      match Position(path[..|path| - 1], item)
      case Some(k) => Some(k)
      case None => if path[|path| - 1].item == item then Some(|path| - 1) else None
  }

  datatype Error = CrossesProse | SkipsParent | NotAncestor

  const INITIAL := State([], None, [], [])

  /** The first line of an item. */
  function StepStart(items: seq<Item>, s: State, i: nat): Result<State, Error>
    requires i < |items|
  {
    var opens := s.group != Some(items[i].group);
    var s := if opens then State(s.Flush(), Some(items[i].group), [], []) else s;
    if !opens && s.path == [] then Failure(CrossesProse)
    else if items[i].level > |s.path| then Failure(SkipsParent)
    else
      var (trees, path) := Close(s.trees, s.path, items[i].level);
      Success(s.(trees := trees, path := path + [Tree(i, [])]))
  }

  /** A further line of an item. */
  function StepMore(s: State, i: nat): Result<State, Error> {
    match Position(s.path, i)
    case None => Failure(NotAncestor)
    case Some(k) =>
      var (trees, path) := Close(s.trees, s.path, k + 1);
      Success(s.(trees := trees, path := path[k := Grow(path[k])]))
  }

  function Grow(t: Tree): Tree {
    t.(body := t.body + [Line])
  }

  /** One line of the replay. */
  function Step(items: seq<Item>, s: State, owner: Option<Owner>): Result<State, Error>
    requires owner.Some? ==> owner.value.item < |items|
  {
    if owner.None? then Success(State(s.Flush() + [Prose], s.group, [], []))
    else if owner.value.part == 0 then StepStart(items, s, owner.value.item)
    else StepMore(s, owner.value.item)
  }

  predicate Known(items: seq<Item>, owners: seq<Option<Owner>>) {
    forall l :: 0 <= l < |owners| && owners[l].Some? ==> owners[l].value.item < |items|
  }

  function Run(items: seq<Item>, s: State, owners: seq<Option<Owner>>): Result<State, Error>
    requires Known(items, owners)
    decreases |owners|
  {
    if owners == [] then Success(s)
    else
      var n := |owners| - 1;
      match Run(items, s, owners[..n])
      case Failure(e) => Failure(e)
      case Success(t) => Step(items, t, owners[n])
  }

  // ----- laying out a truncated stack -----

  lemma {:induction false} LayTreesAppend(a: seq<Tree>, b: seq<Tree>)
    ensures LayTrees(a + b) == LayTrees(a) + LayTrees(b)
  {
    if b == [] {
      assert a + b == a;
    } else {
      var n := |b| - 1;
      var c := a + b;
      assert c[..|c| - 1] == a + b[..n] && c[|c| - 1] == b[n];
      LayTreesAppend(a, b[..n]);
      calc {
        LayTrees(c);
        LayTrees(a + b[..n]) + LayTree(b[n]);
        (LayTrees(a) + LayTrees(b[..n])) + LayTree(b[n]);
        LayTrees(a) + (LayTrees(b[..n]) + LayTree(b[n]));
        LayTrees(a) + LayTrees(b);
      }
    }
  }

  lemma LayGrow(t: Tree, p: Piece)
    ensures LayTree(t.(body := t.body + [p])) == LayTree(t) + LayPiece(t.item, 1 + Lines(t.body), p)
  {
    assert (t.body + [p])[..|t.body|] == t.body;
  }

  lemma LayLast(ts: seq<Tree>, t: Tree)
    ensures LayTrees(ts + [t]) == LayTrees(ts) + LayTree(t)
  {
    var all := ts + [t];
    assert all[..|all| - 1] == ts && all[|all| - 1] == t;
  }

  /** Moving a finished tree into its parent does not move any line. */
  lemma AdoptKeepsLines(rest: seq<Tree>, parent: Tree, child: Tree)
    ensures LayTrees(rest + [Adopt(parent, child)]) == LayTrees(rest + [parent] + [child])
  {
    LayGrow(parent, Sub(child));
    LayLast(rest, Adopt(parent, child));
    LayLast(rest + [parent], child);
    LayLast(rest, parent);
    var a, b, c := LayTrees(rest), LayTree(parent), LayTree(child);
    assert a + (b + c) == (a + b) + c;
  }

  lemma {:induction false} CloseKeepsLines(trees: seq<Tree>, path: seq<Tree>, depth: nat)
    ensures var (ts, p) := Close(trees, path, depth);
            LayTrees(ts + p) == LayTrees(trees + path)
    decreases |path|
  {
    var n := |path| - 1;
    if |path| <= depth {
    } else if n == 0 {
      assert trees + path == (trees + [path[0]]) + [];
    } else {
      var shorter := path[..n][n - 1 := Adopt(path[n - 1], path[n])];
      var rest := trees + path[..n - 1];
      assert trees + path == rest + [path[n - 1]] + [path[n]];
      assert trees + shorter == rest + [Adopt(path[n - 1], path[n])];
      AdoptKeepsLines(rest, path[n - 1], path[n]);
      CloseKeepsLines(trees, shorter, depth);
    }
  }

  lemma {:induction false} CloseTwice(trees: seq<Tree>, path: seq<Tree>, a: nat, b: nat)
    requires b <= a
    ensures var (ts, p) := Close(trees, path, a);
            Close(ts, p, b) == Close(trees, path, b)
    decreases |path|
  {
    var n := |path| - 1;
    if |path| > a && n > 0 {
      CloseTwice(trees, path[..n][n - 1 := Adopt(path[n - 1], path[n])], a, b);
    }
  }

  // ----- soundness: what is accepted is the layout of a forest -----

  ghost predicate PathFits(items: seq<Item>, trees: seq<Tree>, path: seq<Tree>, group: nat) {
    && (forall k :: 0 <= k < |path| ==> Fits(items, path[k], k, group))
    && (forall k :: 0 <= k < |trees| ==> Fits(items, trees[k], 0, group))
  }

  ghost predicate Consistent(items: seq<Item>, s: State) {
    && FitsForest(items, s.done)
    && (s.path == [] ==> s.trees == [] && LastGroup(s.done) == s.group)
    && (s.path != [] ==>
          s.group.Some? && LastGroup(s.done) != s.group
          && PathFits(items, s.trees, s.path, s.group.value))
  }

  lemma {:induction false} CloseFits(items: seq<Item>, trees: seq<Tree>, path: seq<Tree>, depth: nat, group: nat)
    requires PathFits(items, trees, path, group)
    ensures var (ts, p) := Close(trees, path, depth);
            && PathFits(items, ts, p, group)
            && (depth == 0 && path != [] ==> ts != [])
    decreases |path|
  {
    var n := |path| - 1;
    if |path| > depth && n > 0 {
      var parent := Adopt(path[n - 1], path[n]);
      assert Fits(items, path[n - 1], n - 1, group) && Fits(items, path[n], n, group);
      assert Fits(items, parent, n - 1, group);
      CloseFits(items, trees, path[..n][n - 1 := parent], depth, group);
    }
  }

  lemma FlushFits(items: seq<Item>, s: State)
    requires Consistent(items, s)
    ensures FitsForest(items, s.Flush()) && LastGroup(s.Flush()) == s.group
    ensures Layout(s.Flush()) == Layout(s.done) + LayTrees(s.trees + s.path)
  {
    if s.path != [] {
      var ts := Close(s.trees, s.path, 0).0;
      CloseFits(items, s.trees, s.path, 0, s.group.value);
      CloseKeepsLines(s.trees, s.path, 0);
      assert ts + Close(s.trees, s.path, 0).1 == ts;
      assert s.Flush()[..|s.done|] == s.done;
    } else {
      assert s.trees + s.path == [];
    }
  }

  lemma FitsLeaf(items: seq<Item>, i: nat)
    requires i < |items|
    ensures Fits(items, Tree(i, []), items[i].level, items[i].group)
  {
  }

  lemma ProseConsistent(items: seq<Item>, s: State)
    requires Consistent(items, s)
    ensures Consistent(items, State(s.Flush() + [Prose], s.group, [], []))
  {
    FlushFits(items, s);
    assert (s.Flush() + [Prose])[..|s.Flush()|] == s.Flush();
  }

  lemma StartConsistent(items: seq<Item>, s: State, i: nat)
    requires Consistent(items, s) && i < |items| && StepStart(items, s, i).Success?
    ensures Consistent(items, StepStart(items, s, i).value)
  {
    FitsLeaf(items, i);
    if s.group == Some(items[i].group) {
      CloseFits(items, s.trees, s.path, items[i].level, items[i].group);
    } else {
      FlushFits(items, s);
    }
  }

  lemma MoreConsistent(items: seq<Item>, s: State, i: nat)
    requires Consistent(items, s) && StepMore(s, i).Success?
    ensures Consistent(items, StepMore(s, i).value)
  {
    var k := Position(s.path, i).value;
    CloseFits(items, s.trees, s.path, k + 1, s.group.value);
    var path := Close(s.trees, s.path, k + 1).1;
    assert Fits(items, path[k], k, s.group.value);
    assert Fits(items, Grow(path[k]), k, s.group.value);
  }

  lemma StepConsistent(items: seq<Item>, s: State, owner: Option<Owner>)
    requires Consistent(items, s) && (owner.Some? ==> owner.value.item < |items|)
    requires Step(items, s, owner).Success?
    ensures Consistent(items, Step(items, s, owner).value)
  {
    if owner.None? {
      ProseConsistent(items, s);
    } else if owner.value.part == 0 {
      StartConsistent(items, s, owner.value.item);
    } else {
      MoreConsistent(items, s, owner.value.item);
    }
  }

  function Count(owners: seq<Option<Owner>>, item: nat): nat {
    if owners == [] then 0
    else
      var n := |owners| - 1;
      Count(owners[..n], item) + if owners[n].Some? && owners[n].value.item == item then 1 else 0
  }

  /** Part numbers count the lines of their item. */
  ghost predicate Numbered(owners: seq<Option<Owner>>) {
    forall l :: 0 <= l < |owners| && owners[l].Some? ==>
      owners[l].value.part == Count(owners[..l], owners[l].value.item)
  }

  /** The trees on the stack have as many lines as their items had so far. */
  ghost predicate Counted(path: seq<Tree>, owners: seq<Option<Owner>>) {
    forall k :: 0 <= k < |path| ==> Count(owners, path[k].item) == 1 + Lines(path[k].body)
  }

  lemma {:induction false} CloseCounts(trees: seq<Tree>, path: seq<Tree>, depth: nat)
    ensures var p := Close(trees, path, depth).1;
            forall k :: 0 <= k < |p| ==> Lines(p[k].body) == Lines(path[k].body)
    decreases |path|
  {
    var n := |path| - 1;
    if |path| > depth && n > 0 {
      var parent := Adopt(path[n - 1], path[n]);
      assert parent.body[..|path[n - 1].body|] == path[n - 1].body;
      CloseCounts(trees, path[..n][n - 1 := parent], depth);
    }
  }

  /** The lines that a state has read. */
  function Read(s: State): seq<Option<Owner>> {
    Layout(s.done) + LayTrees(s.trees + s.path)
  }

  lemma ProseLays(items: seq<Item>, s: State)
    requires Consistent(items, s)
    ensures Read(State(s.Flush() + [Prose], s.group, [], [])) == Read(s) + [None]
  {
    FlushFits(items, s);
    assert (s.Flush() + [Prose])[..|s.Flush()|] == s.Flush();
    assert LayTrees([] + []) == [];
  }

  lemma ReadMore(s: State, t: State, owner: Option<Owner>)
    requires t.done == s.done
    requires LayTrees(t.trees + t.path) == LayTrees(s.trees + s.path) + [owner]
    ensures Read(t) == Read(s) + [owner]
  {
    var a, b := Layout(s.done), LayTrees(s.trees + s.path);
    assert a + (b + [owner]) == (a + b) + [owner];
  }

  /** A leaf opened on a stack adds its one line. */
  lemma OpenLeaf(trees: seq<Tree>, path: seq<Tree>, i: nat)
    ensures LayTrees(trees + (path + [Tree(i, [])])) == LayTrees(trees + path) + [Some(Owner(i, 0))]
  {
    var leaf := Tree(i, []);
    assert LayTree(leaf) == [Some(Owner(i, 0))];
    var all := trees + (path + [leaf]);
    assert all[..|all| - 1] == trees + path && all[|all| - 1] == leaf;
  }

  lemma StartLays(items: seq<Item>, s: State, i: nat)
    requires Consistent(items, s) && i < |items| && StepStart(items, s, i).Success?
    ensures Read(StepStart(items, s, i).value) == Read(s) + [Some(Owner(i, 0))]
  {
    var t := StepStart(items, s, i).value;
    if s.group == Some(items[i].group) {
      var (trees, path) := Close(s.trees, s.path, items[i].level);
      CloseKeepsLines(s.trees, s.path, items[i].level);
      OpenLeaf(trees, path, i);
      ReadMore(s, t, Some(Owner(i, 0)));
    } else {
      FlushFits(items, s);
      OpenLeaf([], [], i);
      var none: seq<Tree> := [];
      assert none + none == none;
      assert LayTrees(t.trees + t.path) == [Some(Owner(i, 0))];
    }
  }

  lemma GrowLast(trees: seq<Tree>, path: seq<Tree>, k: nat)
    requires |path| == k + 1
    ensures LayTrees(trees + path[k := Grow(path[k])])
         == LayTrees(trees + path) + [Some(Owner(path[k].item, 1 + Lines(path[k].body)))]
  {
    LayGrow(path[k], Line);
    var all, after, rest := trees + path, trees + path[k := Grow(path[k])], trees + path[..k];
    assert all[..|all| - 1] == rest && all[|all| - 1] == path[k];
    assert after[..|after| - 1] == rest && after[|after| - 1] == Grow(path[k]);
  }

  lemma MoreTrees(s: State, owners: seq<Option<Owner>>, i: nat)
    requires Counted(s.path, owners) && StepMore(s, i).Success?
    ensures var t := StepMore(s, i).value;
            LayTrees(t.trees + t.path) == LayTrees(s.trees + s.path) + [Some(Owner(i, Count(owners, i)))]
  {
    var k := Position(s.path, i).value;
    MoreAt(s, k, Count(owners, i));
  }

  lemma MoreAt(s: State, k: nat, part: nat)
    requires k < |s.path| && part == 1 + Lines(s.path[k].body)
    ensures var (trees, path) := Close(s.trees, s.path, k + 1);
            LayTrees(trees + path[k := Grow(path[k])])
            == LayTrees(s.trees + s.path) + [Some(Owner(s.path[k].item, part))]
  {
    var (trees, path) := Close(s.trees, s.path, k + 1);
    CloseKeepsLines(s.trees, s.path, k + 1);
    CloseCounts(s.trees, s.path, k + 1);
    assert path[k].item == s.path[k].item && part == 1 + Lines(path[k].body);
    GrowLast(trees, path, k);
  }

  lemma MoreLays(s: State, owners: seq<Option<Owner>>, i: nat)
    requires Counted(s.path, owners) && StepMore(s, i).Success?
    ensures Read(StepMore(s, i).value) == Read(s) + [Some(Owner(i, Count(owners, i)))]
  {
    MoreTrees(s, owners, i);
    ReadMore(s, StepMore(s, i).value, Some(Owner(i, Count(owners, i))));
  }

  lemma StartCounts(items: seq<Item>, s: State, owners: seq<Option<Owner>>, i: nat)
    requires Counted(s.path, owners) && i < |items| && StepStart(items, s, i).Success?
    requires Count(owners, i) == 0
    ensures Counted(StepStart(items, s, i).value.path, owners + [Some(Owner(i, 0))])
  {
    var after := owners + [Some(Owner(i, 0))];
    assert after[..|owners|] == owners;
    CloseCounts(s.trees, s.path, items[i].level);
  }

  lemma MoreCounts(items: seq<Item>, s: State, owners: seq<Option<Owner>>, i: nat, part: nat)
    requires Counted(s.path, owners) && StepMore(s, i).Success?
    requires forall j, k :: 0 <= j < k < |s.path| ==> s.path[j].item != s.path[k].item
    ensures Counted(StepMore(s, i).value.path, owners + [Some(Owner(i, part))])
  {
    var after := owners + [Some(Owner(i, part))];
    assert after[..|owners|] == owners;
    var k := Position(s.path, i).value;
    CloseCounts(s.trees, s.path, k + 1);
    var path := Close(s.trees, s.path, k + 1).1;
    assert Grow(path[k]).body[..|path[k].body|] == path[k].body;
  }

  /** After an accepted prefix the state has read exactly that prefix. */
  lemma {:induction false} RunReads(items: seq<Item>, owners: seq<Option<Owner>>)
    requires Known(items, owners) && Numbered(owners) && Run(items, INITIAL, owners).Success?
    ensures var s := Run(items, INITIAL, owners).value;
            Consistent(items, s) && Counted(s.path, owners) && Read(s) == owners
  {
    if owners == [] {
      assert INITIAL.trees + INITIAL.path == [];
    } else {
      var n := |owners| - 1;
      var prior := owners[..n];
      assert owners == prior + [owners[n]];
      forall l | 0 <= l < n && prior[l].Some?
        ensures prior[l].value.part == Count(prior[..l], prior[l].value.item)
      {
        assert prior[..l] == owners[..l];
      }
      RunReads(items, prior);
      var s := Run(items, INITIAL, prior).value;
      StepConsistent(items, s, owners[n]);
      if owners[n].None? {
        ProseLays(items, s);
      } else if owners[n].value.part == 0 {
        StartLays(items, s, owners[n].value.item);
        StartCounts(items, s, prior, owners[n].value.item);
      } else {
        DistinctPath(items, s);
        MoreLays(s, prior, owners[n].value.item);
        MoreCounts(items, s, prior, owners[n].value.item, owners[n].value.part);
      }
    }
  }

  lemma DistinctPath(items: seq<Item>, s: State)
    requires Consistent(items, s)
    ensures forall j, k :: 0 <= j < k < |s.path| ==> s.path[j].item != s.path[k].item
  {
    forall j, k | 0 <= j < k < |s.path| ensures s.path[j].item != s.path[k].item {
      assert Fits(items, s.path[j], j, s.group.value) && Fits(items, s.path[k], k, s.group.value);
    }
  }

  /** The forest that an accepted block recovers. */
  function Forest(items: seq<Item>, owners: seq<Option<Owner>>): seq<Section>
    requires Known(items, owners) && Run(items, INITIAL, owners).Success?
  {
    Run(items, INITIAL, owners).value.Flush()
  }

  /** An accepted annotation is an ordered forest over its lines. */
  lemma AcceptedIsForest(items: seq<Item>, owners: seq<Option<Owner>>)
    requires Known(items, owners) && Numbered(owners) && Run(items, INITIAL, owners).Success?
    ensures FitsForest(items, Forest(items, owners))
    ensures Layout(Forest(items, owners)) == owners
  {
    RunReads(items, owners);
    FlushFits(items, Run(items, INITIAL, owners).value);
  }

  // ----- completeness: every fitting forest passes and is recovered -----

  lemma {:induction false} RunAppend(items: seq<Item>, s: State, a: seq<Option<Owner>>, r: State,
                                    b: seq<Option<Owner>>)
    requires Known(items, a) && Known(items, b) && Run(items, s, a) == Success(r)
    ensures Known(items, a + b)
    ensures Run(items, s, a + b) == Run(items, r, b)
  {
    if b == [] {
      assert a + b == a;
    } else {
      var n := |b| - 1;
      RunAppend(items, s, a, r, b[..n]);
      assert (a + b)[..|a + b| - 1] == a + b[..n];
    }
  }

  /** From `s` these lines lead to `r`. */
  ghost predicate Leads(items: seq<Item>, s: State, lines: seq<Option<Owner>>, r: State) {
    Known(items, lines) && Run(items, s, lines) == Success(r) && Consistent(items, r)
  }

  lemma LeadsOn(items: seq<Item>, s: State, a: seq<Option<Owner>>, r: State, b: seq<Option<Owner>>, q: State)
    requires Leads(items, s, a, r) && Leads(items, r, b, q)
    ensures Leads(items, s, a + b, q)
  {
    RunAppend(items, s, a, r, b);
  }

  lemma LeadsOne(items: seq<Item>, s: State, owner: Option<Owner>, r: State)
    requires Consistent(items, s) && (owner.Some? ==> owner.value.item < |items|)
    requires Step(items, s, owner) == Success(r)
    ensures Leads(items, s, [owner], r)
  {
    var line := [owner];
    assert line[..0] == [] && line[0] == owner;
    StepConsistent(items, s, owner);
  }

  /** `r` stands where `s` stood, with `base` truncated to a stack on which `t` is on top. */
  ghost predicate Reached(s: State, r: State, trees: seq<Tree>, base: seq<Tree>, t: Tree) {
    && r.done == s.done && r.group == s.group
    && |r.path| > |base|
    && Close(r.trees, r.path, |base| + 1) == (trees, base + [t])
  }

  lemma TreeRuns(items: seq<Item>, s: State, t: Tree, d: nat) returns (r: State)
    requires Consistent(items, s) && s.path != [] && d <= |s.path|
    requires Fits(items, t, d, s.group.value)
    ensures Leads(items, s, LayTree(t), r)
    ensures Reached(s, r, Close(s.trees, s.path, d).0, Close(s.trees, s.path, d).1, t)
    decreases t, 1
  {
    var (trees, base) := Close(s.trees, s.path, d);
    var s1 := StepStart(items, s, t.item).value;
    LeadsOne(items, s, Some(Owner(t.item, 0)), s1);
    r := BodyRuns(items, s1, base, t.item, t.body);
    LeadsOn(items, s, [Some(Owner(t.item, 0))], s1, LayBody(t.item, t.body), r);
  }

  lemma BodyRuns(items: seq<Item>, s: State, base: seq<Tree>, item: nat, body: seq<Piece>) returns (r: State)
    requires Consistent(items, s) && s.path == base + [Tree(item, [])]
    requires forall k :: 0 <= k < |body| && body[k].Sub? ==>
               Fits(items, body[k].tree, |base| + 1, s.group.value)
    ensures Leads(items, s, LayBody(item, body), r)
    ensures Reached(s, r, s.trees, base, Tree(item, body))
    decreases body, 0
  {
    if body == [] {
      r := s;
    } else {
      var n := |body| - 1;
      var part := 1 + Lines(body[..n]);
      var q := BodyRuns(items, s, base, item, body[..n]);
      assert body == body[..n] + [body[n]];
      assert Fits(items, s.path[|base|], |base|, s.group.value);
      r := PieceRuns(items, s, q, base, item, body[..n], part, body[n]);
      LeadsOn(items, s, LayBody(item, body[..n]), q, LayPiece(item, part, body[n]), r);
    }
  }

  lemma PieceRuns(items: seq<Item>, s: State, q: State, base: seq<Tree>, item: nat, body: seq<Piece>,
                  part: nat, p: Piece) returns (r: State)
    requires Consistent(items, q) && item < |items| && part > 0 && s.group.Some?
    requires Reached(s, q, s.trees, base, Tree(item, body))
    requires p.Sub? ==> Fits(items, p.tree, |base| + 1, s.group.value)
    ensures Leads(items, q, LayPiece(item, part, p), r)
    ensures Reached(s, r, s.trees, base, Tree(item, body + [p]))
    decreases p, 2
  {
    match p
    case Line =>
      r := LineRuns(items, s, q, base, item, body, part);
    case Sub(t) =>
      r := TreeRuns(items, q, t, |base| + 1);
      SubRuns(s, q, r, base, item, body, t);
  }

  lemma LineRuns(items: seq<Item>, s: State, q: State, base: seq<Tree>, item: nat, body: seq<Piece>, part: nat)
    returns (r: State)
    requires Consistent(items, q) && item < |items| && part > 0
    requires Reached(s, q, s.trees, base, Tree(item, body))
    ensures Leads(items, q, [Some(Owner(item, part))], r)
    ensures Reached(s, r, s.trees, base, Tree(item, body + [Line]))
  {
    DistinctPath(items, q);
    var path := Close(q.trees, q.path, |base| + 1).1;
    assert path[|base|].item == item == q.path[|base|].item;
    assert Position(q.path, item) == Some(|base|);
    assert path[|base| := Grow(path[|base|])] == base + [Tree(item, body + [Line])];
    r := StepMore(q, item).value;
    LeadsOne(items, q, Some(Owner(item, part)), r);
  }

  lemma SubRuns(s: State, r: State, q: State, base: seq<Tree>, item: nat, body: seq<Piece>, t: Tree)
    requires Reached(s, r, s.trees, base, Tree(item, body))
    requires Reached(r, q, s.trees, base + [Tree(item, body)], t)
    ensures Reached(s, q, s.trees, base, Tree(item, body + [Sub(t)]))
  {
    var parent, d := Tree(item, body), |base|;
    var stack := base + [parent] + [t];
    CloseTwice(q.trees, q.path, d + 2, d + 1);
    assert stack[..d + 1][d := Adopt(parent, t)] == base + [Adopt(parent, t)];
  }

  lemma CloseLast(r: State, ts: seq<Tree>, t: Tree)
    requires Close(r.trees, r.path, 1) == (ts, [] + [t])
    ensures Close(r.trees, r.path, 0) == (ts + [t], [])
  {
    CloseTwice(r.trees, r.path, 1, 0);
    var top := [] + [t];
    assert |top| == 1 && top[0] == t;
  }

  /** The trees of one group are read one after the other. */
  lemma {:induction false} TreesRun(items: seq<Item>, s: State, group: nat, ts: seq<Tree>) returns (r: State)
    requires Consistent(items, s) && s.group != Some(group) && ts != []
    requires forall k :: 0 <= k < |ts| ==> Fits(items, ts[k], 0, group)
    ensures Leads(items, s, LayTrees(ts), r)
    ensures r.done == s.Flush() && r.group == Some(group) && r.path != []
    ensures Close(r.trees, r.path, 0) == (ts, [])
    decreases |ts|
  {
    var n := |ts| - 1;
    assert ts == ts[..n] + [ts[n]];
    if n == 0 {
      r := FirstTreeRuns(items, s, group, ts[0]);
      assert ts[..0] == [] && ts == [ts[0]];
      assert LayTrees(ts) == LayTrees(ts[..0]) + LayTree(ts[0]) == LayTree(ts[0]);
    } else {
      var q := TreesRun(items, s, group, ts[..n]);
      r := NextTreeRuns(items, s, q, group, ts[..n], ts[n]);
    }
  }

  lemma NextTreeRuns(items: seq<Item>, s: State, q: State, group: nat, ts: seq<Tree>, t: Tree) returns (r: State)
    requires Leads(items, s, LayTrees(ts), q) && q.group == Some(group) && q.path != []
    requires Close(q.trees, q.path, 0) == (ts, []) && Fits(items, t, 0, group)
    ensures Leads(items, s, LayTrees(ts + [t]), r)
    ensures r.done == q.done && r.group == q.group && r.path != []
    ensures Close(r.trees, r.path, 0) == (ts + [t], [])
  {
    r := TreeRuns(items, q, t, 0);
    LeadsOn(items, s, LayTrees(ts), q, LayTree(t), r);
    LayLast(ts, t);
    CloseLast(r, ts, t);
  }

  lemma FirstTreeRuns(items: seq<Item>, s: State, group: nat, t: Tree) returns (r: State)
    requires Consistent(items, s) && s.group != Some(group) && Fits(items, t, 0, group)
    ensures Leads(items, s, LayTree(t), r)
    ensures r.done == s.Flush() && r.group == Some(group) && r.path != []
    ensures Close(r.trees, r.path, 0) == ([t], [])
  {
    var s1 := State(s.Flush(), Some(group), [], [] + [Tree(t.item, [])]);
    assert StepStart(items, s, t.item) == Success(s1);
    LeadsOne(items, s, Some(Owner(t.item, 0)), s1);
    r := BodyRuns(items, s1, [], t.item, t.body);
    assert Tree(t.item, t.body) == t;
    LeadsOn(items, s, [Some(Owner(t.item, 0))], s1, LayBody(t.item, t.body), r);
    var none: seq<Tree> := [];
    CloseLast(r, none, t);
    assert none + [t] == [t];
  }

  lemma {:induction false} ForestRuns(items: seq<Item>, f: seq<Section>) returns (r: State)
    requires FitsForest(items, f)
    ensures Leads(items, INITIAL, Layout(f), r)
    ensures r.Flush() == f && r.group == LastGroup(f)
    decreases |f|
  {
    if f == [] {
      r := INITIAL;
    } else {
      var n := |f| - 1;
      assert f == f[..n] + [f[n]];
      var s := ForestRuns(items, f[..n]);
      match f[n]
      case Prose =>
        r := Step(items, s, None).value;
        LeadsOne(items, s, None, r);
        LeadsOn(items, INITIAL, Layout(f[..n]), s, [None], r);
      case ListGroup(g, ts) =>
        r := TreesRun(items, s, g, ts);
        LeadsOn(items, INITIAL, Layout(f[..n]), s, LayTrees(ts), r);
    }
  }

  /** Every forest laid out on lines passes the replay and is recovered from it. */
  lemma ForestIsAccepted(items: seq<Item>, f: seq<Section>)
    requires FitsForest(items, f)
    ensures Known(items, Layout(f)) && Run(items, INITIAL, Layout(f)).Success?
    ensures Forest(items, Layout(f)) == f
  {
    var r := ForestRuns(items, f);
  }
}
