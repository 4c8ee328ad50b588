/** What the text of a block looks like: statements about whole texts of crates/core/src/types.rs
 *  that do not speak of boundaries, separators or joins. */
module BlockTextLaws {
  import opened BlockText
  import opened Wrappers

  // ----- trimming -----

  ghost predicate AllWhite(u: Unicode, t: string) {
    forall i :: 0 <= i < |t| ==> u.white(t[i])
  }

  /** Nothing to trim. */
  ghost predicate Tight(u: Unicode, t: string) {
    t != "" ==> !u.white(t[0]) && !u.white(t[|t| - 1])
  }

  lemma {:induction false} TrimEndCuts(u: Unicode, t: string) returns (b: string)
    ensures t == TrimEnd(u, t) + b && AllWhite(u, b)
  {
    if t != "" && u.white(t[|t| - 1]) {
      var n := |t| - 1;
      var c := TrimEndCuts(u, t[..n]);
      b := c + [t[n]];
      LastMoves(t, n, TrimEnd(u, t[..n]), c);
    } else {
      b := "";
    }
  }

  lemma LastMoves(t: string, n: nat, r: string, c: string)
    requires |t| == n + 1 && t[..n] == r + c
    ensures t == r + (c + [t[n]])
  {
    assert t == t[..n] + [t[n]];
  }

  lemma {:induction false} TrimStartCuts(u: Unicode, t: string) returns (a: string)
    ensures t == a + TrimStart(u, t) && AllWhite(u, a)
    ensures TrimStart(u, t) != "" ==> !u.white(TrimStart(u, t)[0])
  {
    if t != "" && u.white(t[0]) {
      a := TrimStartCuts(u, t[1..]);
      assert t == [t[0]] + t[1..];
      a := [t[0]] + a;
    } else {
      a := "";
    }
  }

  /** Trimming cuts white characters off both ends and leaves none there. */
  lemma TrimCuts(u: Unicode, t: string) returns (a: string, b: string)
    ensures t == a + Trim(u, t) + b && AllWhite(u, a) && AllWhite(u, b) && Tight(u, Trim(u, t))
  {
    a := TrimStartCuts(u, t);
    var rest := TrimStart(u, t);
    b := TrimEndCuts(u, rest);
    if Trim(u, t) != "" {
      assert rest[0] == Trim(u, t)[0];
    }
  }

  // ----- flowing text -----

  /** The last item that shows is a lone hyphen, encoded as one in the document. */
  ghost predicate LastShownIsHyphen(u: Unicode, items: seq<Item>) {
    exists k :: 0 <= k < |items| && items[k] == Item("-", true) && !u.white('-')
                && forall m :: k < m < |items| ==> AllWhite(u, items[m].raw)
  }

  /** A word wraps from one line to the next at an encoded hyphen: the lines run in the same
   *  horizontal direction, turned by no more than two degrees against each other, the second
   *  starts at least half a line lower, and goes on with a letter. */
  ghost predicate Wraps(u: Unicode, one: Line, x: string, two: Line, y: string) {
    && x != "" && x[|x| - 1] == '-' && LastShownIsHyphen(u, one.items)
    && one.direction == two.direction && one.direction in {LeftToRight, RightToLeft}
    && one.rotation - two.rotation <= 2.0 && two.rotation - one.rotation <= 2.0
    && 2.0 * (two.top - one.top) >= one.bottom - one.top
    && 2.0 * (two.top - one.top) >= two.bottom - two.top
    && 2.0 * (two.top - one.top) >= 1.0
    && y != "" && u.alphabetic(y[0])
  }

  predicate Flows(kind: Label) {
    kind in {Text, Title, Formula, Chrome, Reference, Unknown}
  }

  predicate JoinsHyphens(kind: Label) {
    kind in {Text, Title}
  }

  lemma WhiteIsTrimmed(u: Unicode, t: string)
    ensures Trim(u, t) == "" <==> AllWhite(u, t)
  {
    var a, b := TrimCuts(u, t);
    var x := Trim(u, t);
    if x != "" {
      assert t[|a|] == x[0];
    } else {
      assert t == a + b;
    }
  }

  lemma {:induction false} LastVisibleIs(u: Unicode, items: seq<Item>)
    ensures LastVisible(u, items) == Some(Item("-", true)) <==> LastShownIsHyphen(u, items)
  {
    if items != [] {
      var n := |items| - 1;
      WhiteIsTrimmed(u, items[n].raw);
      LastVisibleIs(u, items[..n]);
      if Trim(u, items[n].raw) != "" {
        if LastShownIsHyphen(u, items) {
          var k :| 0 <= k < |items| && items[k] == Item("-", true) && !u.white('-')
                   && forall m :: k < m < |items| ==> AllWhite(u, items[m].raw);
          assert k == n;
        }
        if items[n] == Item("-", true) {
          assert "-"[0] == '-';
          assert LastShownIsHyphen(u, items);
        }
      } else {
        HyphenBefore(u, items);
      }
    }
  }

  lemma HyphenBefore(u: Unicode, items: seq<Item>)
    requires items != [] && AllWhite(u, items[|items| - 1].raw)
    ensures LastShownIsHyphen(u, items) <==> LastShownIsHyphen(u, items[..|items| - 1])
  {
    var n := |items| - 1;
    var front := items[..n];
    assert items[n].raw == "-" ==> u.white('-') by {
      if items[n].raw == "-" { assert items[n].raw[0] == '-'; }
    }
    if LastShownIsHyphen(u, items) {
      var k :| 0 <= k < |items| && items[k] == Item("-", true) && !u.white('-')
               && forall m :: k < m < |items| ==> AllWhite(u, items[m].raw);
      assert front[k] == Item("-", true) && forall m :: k < m < n ==> AllWhite(u, front[m].raw);
    }
    if LastShownIsHyphen(u, front) {
      var k :| 0 <= k < n && front[k] == Item("-", true) && !u.white('-')
               && forall m :: k < m < n ==> AllWhite(u, front[m].raw);
      assert items[k] == Item("-", true);
      forall m | k < m < |items| ensures AllWhite(u, items[m].raw) {
        if m < n { assert items[m] == front[m]; }
      }
    }
  }

  lemma SameEnd(u: Unicode, t: string)
    requires Trim(u, t) != ""
    ensures TrimEnd(u, t) != "" && TrimEnd(u, t)[|TrimEnd(u, t)| - 1] == Trim(u, t)[|Trim(u, t)| - 1]
  {
    var a, b := TrimCuts(u, t);
    var c := TrimEndCuts(u, t);
    NonWhiteLast(u, t, a + Trim(u, t), b);
    NonWhiteLast(u, t, TrimEnd(u, t), c);
    WhiteIsTrimmed(u, t);
  }

  /** The last character of `t` that is not white ends `p`. */
  lemma NonWhiteLast(u: Unicode, t: string, p: string, b: string)
    requires t == p + b && AllWhite(u, b)
    ensures forall i :: |p| <= i < |t| ==> u.white(t[i])
    ensures p != "" ==> t[|p| - 1] == p[|p| - 1]
  {
    forall i | |p| <= i < |t| ensures u.white(t[i]) {
      assert t[i] == b[i - |p|];
    }
  }

  lemma HyphenSeen(u: Unicode, line: Line)
    requires Trim(u, line.text) != ""
    ensures EndsWithEncodedHyphen(u, line) <==>
              Trim(u, line.text)[|Trim(u, line.text)| - 1] == '-' && LastShownIsHyphen(u, line.items)
  {
    SameEnd(u, line.text);
    LastVisibleIs(u, line.items);
  }

  lemma SeparatorIs(u: Unicode, kind: Label, one: Line, two: Line)
    requires Flows(kind) && Trim(u, one.text) != "" && Trim(u, two.text) != ""
    ensures Separator(u, PolicyOf(kind), one, two)
         == if JoinsHyphens(kind) && Wraps(u, one, Trim(u, one.text), two, Trim(u, two.text)) then "" else " "
  {
    HyphenSeen(u, one);
  }

  /** The text of two lines that both show something: for running text and titles nothing
   *  stands between them exactly when a word wraps there, and otherwise, as for every other
   *  flowing label, one space does. */
  lemma FlowOfTwo(u: Unicode, kind: Label, one: Line, two: Line, es: seq<Emission>)
    requires Flows(kind) && Trim(u, one.text) != "" && Trim(u, two.text) != ""
    ensures var x, y := Trim(u, one.text), Trim(u, two.text);
            DerivedText(u, kind, [one, two], es)
            == if JoinsHyphens(kind) && Wraps(u, one, x, two, y) then x + y else x + " " + y
  {
    FlowIsWoven(u, kind, [one, two], es);
    assert [one, two][1..] == [two] && [two][1..] == [];
    var x, y := Trim(u, one.text), Trim(u, two.text);
    assert Woven(u, kind, [two], Some(one)) == Stretch(u, kind, Some(one), two);
    Regroup(x, " ", y);
  }

  /** The text of any number of lines, told from the first to the last: lines that show
   *  nothing are left out, and each other line stands trimmed after one space, or after
   *  nothing where a word wraps to it from the last line that shows something. */
  ghost function Woven(u: Unicode, kind: Label, lines: seq<Line>, last: Option<Line>): string {
    if lines == [] then ""
    else
      Stretch(u, kind, last, lines[0])
      + Woven(u, kind, lines[1..], if Trim(u, lines[0].text) != "" then Some(lines[0]) else last)
  }

  /** What one line adds after the last that shows something. */
  ghost function Stretch(u: Unicode, kind: Label, last: Option<Line>, line: Line): string {
    var x := Trim(u, line.text);
    if x == "" then ""
    else if last.None? || (JoinsHyphens(kind) && Wraps(u, last.value, Trim(u, last.value.text), line, x)) then x
    else " " + x
  }

  ghost function LastShown(u: Unicode, lines: seq<Line>, last: Option<Line>): Option<Line> {
    if lines == [] then last
    else if Trim(u, lines[|lines| - 1].text) != "" then Some(lines[|lines| - 1])
    else LastShown(u, lines[..|lines| - 1], last)
  }

  lemma {:induction false} LastShownFirst(u: Unicode, line: Line, lines: seq<Line>, last: Option<Line>)
    ensures LastShown(u, [line] + lines, last)
         == LastShown(u, lines, if Trim(u, line.text) != "" then Some(line) else last)
  {
    if lines == [] {
      assert ([line] + lines)[..0] == [];
    } else {
      var n := |lines| - 1;
      assert ([line] + lines)[..n + 1] == [line] + lines[..n];
      LastShownFirst(u, line, lines[..n], last);
    }
  }

  lemma {:induction false} WovenMore(u: Unicode, kind: Label, lines: seq<Line>, line: Line, last: Option<Line>)
    ensures Woven(u, kind, lines + [line], last)
         == Woven(u, kind, lines, last) + Stretch(u, kind, LastShown(u, lines, last), line)
    decreases |lines|
  {
    if lines == [] {
      assert lines + [line] == [line] && [line][1..] == [];
    } else {
      var next := if Trim(u, lines[0].text) != "" then Some(lines[0]) else last;
      assert (lines + [line])[1..] == lines[1..] + [line];
      WovenMore(u, kind, lines[1..], line, next);
      LastShownFirst(u, lines[0], lines[1..], last);
      assert [lines[0]] + lines[1..] == lines;
      Regroup(Stretch(u, kind, last, lines[0]), Woven(u, kind, lines[1..], next),
              Stretch(u, kind, LastShown(u, lines, last), line));
    }
  }

  lemma Regroup(a: string, b: string, c: string)
    ensures a + (b + c) == (a + b) + c
  {
  }

  /** The last line that was kept is the last that shows something. */
  lemma {:induction false} KeptLines(u: Unicode, kind: Label, lines: seq<Line>)
    requires Flows(kind)
    ensures var kept := NonEmpty(u, PolicyOf(kind), lines);
            && (kept == [] <==> LastShown(u, lines, None).None?)
            && (kept != [] ==>
                  && LastShown(u, lines, None) == Some(kept[|kept| - 1].0)
                  && Trim(u, kept[|kept| - 1].0.text) != "")
  {
    if lines != [] {
      KeptLines(u, kind, lines[..|lines| - 1]);
      KeptMore(u, kind, lines);
    }
  }

  lemma {:induction false} JoinedIsWoven(u: Unicode, kind: Label, lines: seq<Line>)
    requires Flows(kind)
    ensures Joined(u, PolicyOf(kind), NonEmpty(u, PolicyOf(kind), lines)) == Woven(u, kind, lines, None)
    decreases |lines|
  {
    if lines != [] {
      var n := |lines| - 1;
      var front, line := lines[..n], lines[n];
      assert front + [line] == lines;
      JoinedIsWoven(u, kind, front);
      WovenMore(u, kind, front, line, None);
      KeptLines(u, kind, front);
      KeptMore(u, kind, lines);
      JoinedStretch(u, kind, NonEmpty(u, PolicyOf(kind), front), LastShown(u, front, None), line);
    }
  }

  /** Every flowing block has the woven text of its lines. */
  lemma FlowIsWoven(u: Unicode, kind: Label, lines: seq<Line>, es: seq<Emission>)
    requires Flows(kind)
    ensures DerivedText(u, kind, lines, es) == Woven(u, kind, lines, None)
  {
    FlowIsJoined(u, kind, lines, es);
    JoinedIsWoven(u, kind, lines);
  }

  /** A line as it is kept: with its text, or not at all. */
  ghost function KeptLine(u: Unicode, line: Line): seq<(Line, string)> {
    if Trim(u, line.text) == "" then [] else [(line, Trim(u, line.text))]
  }

  lemma KeptMore(u: Unicode, kind: Label, lines: seq<Line>)
    requires Flows(kind) && lines != []
    ensures var p, n := PolicyOf(kind), |lines| - 1;
            NonEmpty(u, p, lines) == NonEmpty(u, p, lines[..n]) + KeptLine(u, lines[n])
  {
  }

  lemma JoinedStretch(u: Unicode, kind: Label, kept: seq<(Line, string)>, last: Option<Line>, line: Line)
    requires Flows(kind) && (kept == [] <==> last.None?)
    requires kept != [] ==> last == Some(kept[|kept| - 1].0) && Trim(u, kept[|kept| - 1].0.text) != ""
    ensures Joined(u, PolicyOf(kind), kept + KeptLine(u, line))
         == Joined(u, PolicyOf(kind), kept) + Stretch(u, kind, last, line)
  {
    var p, x := PolicyOf(kind), Trim(u, line.text);
    if x == "" {
      assert kept + [] == kept;
    } else {
      JoinedMore(u, p, kept, line, x);
      if kept != [] {
        SeparatorIs(u, kind, last.value, line);
        Regroup(Joined(u, p, kept), Separator(u, p, last.value, line), x);
        assert "" + x == x;
      }
    }
  }

  lemma FlowIsJoined(u: Unicode, kind: Label, lines: seq<Line>, es: seq<Emission>)
    requires Flows(kind)
    ensures DerivedText(u, kind, lines, es) == Joined(u, PolicyOf(kind), NonEmpty(u, PolicyOf(kind), lines))
  {
  }

  lemma JoinedMore(u: Unicode, p: Policy, kept: seq<(Line, string)>, line: Line, x: string)
    ensures Joined(u, p, kept + [(line, x)])
         == Joined(u, p, kept) + (if kept == [] then "" else Separator(u, p, kept[|kept| - 1].0, line)) + x
  {
    var all := kept + [(line, x)];
    assert all[..|kept|] == kept;
  }

  // ----- structured text -----

  /** Labels whose text keeps rows and columns take the projection as it is, and the pieces
   *  of a projection stand one after the other. */
  lemma StructuredText(u: Unicode, kind: Label, lines: seq<Line>, es: seq<Emission>, e: Emission)
    requires kind in {Algorithm, Image, Table, Content}
    ensures DerivedText(u, kind, lines, es + [e]) == DerivedText(u, kind, lines, es) + Piece(e)
    ensures DerivedText(u, kind, lines, []) == ""
  {
    assert (es + [e])[..|es|] == es;
  }

  /** A piece is its line end, its spaces and its body, in this order. */
  lemma PieceReads(e: Emission, i: nat)
    requires i < |Piece(e)|
    ensures var start := if e.newRow then 1 else 0;
            && |Piece(e)| == start + e.spaces + |e.body|
            && (i < start ==> Piece(e)[i] == '\n')
            && (start <= i < start + e.spaces ==> Piece(e)[i] == ' ')
            && (i >= start + e.spaces ==> Piece(e)[i] == e.body[i - start - e.spaces])
  {
  }

  // ----- older stored texts -----

  /** The two older joins of two lines that show something: with a line end and only the
   *  right side trimmed, and with a space and both sides trimmed. */
  lemma OldJoinsOfTwo(u: Unicode, one: Line, two: Line)
    requires Trim(u, one.text) != "" && Trim(u, two.text) != ""
    ensures LineByLine(u, [one, two]) == TrimEnd(u, one.text) + "\n" + TrimEnd(u, two.text)
    ensures SpaceJoined(u, [one, two]) == Trim(u, one.text) + " " + Trim(u, two.text)
  {
    SameEnd(u, one.text);
    SameEnd(u, two.text);
    TwoTexts(one, two, t => TrimEnd(u, t), "\n");
    TwoTexts(one, two, t => Trim(u, t), " ");
  }

  lemma TwoTexts(one: Line, two: Line, trim: string -> string, separator: string)
    requires trim(one.text) != "" && trim(two.text) != ""
    ensures JoinWith(Texts([one, two], trim), separator) == trim(one.text) + separator + trim(two.text)
  {
    var x, y := trim(one.text), trim(two.text);
    assert [one, two][..1] == [one] && [one][..0] == [];
    assert Texts([one], trim) == [x] && Texts([one, two], trim) == [x, y];
    assert [x, y][..1] == [x] && [x][..0] == [];
    assert JoinWith([x], separator) == x;
  }

  /** A line that shows nothing leaves no trace in either of them. */
  lemma OldJoinsSkipBlank(u: Unicode, lines: seq<Line>, blank: Line)
    requires AllWhite(u, blank.text)
    ensures LineByLine(u, lines + [blank]) == LineByLine(u, lines)
    ensures SpaceJoined(u, lines + [blank]) == SpaceJoined(u, lines)
  {
    WhiteIsTrimmed(u, blank.text);
    WhiteEnd(u, blank.text);
    SkipBlank(lines, blank, t => TrimEnd(u, t));
    SkipBlank(lines, blank, t => Trim(u, t));
  }

  lemma {:induction false} WhiteEnd(u: Unicode, t: string)
    requires AllWhite(u, t)
    ensures TrimEnd(u, t) == ""
  {
    if t != "" { WhiteEnd(u, t[..|t| - 1]); }
  }

  lemma SkipBlank(lines: seq<Line>, blank: Line, trim: string -> string)
    requires trim(blank.text) == ""
    ensures Texts(lines + [blank], trim) == Texts(lines, trim)
  {
    assert (lines + [blank])[..|lines|] == lines;
  }
}
