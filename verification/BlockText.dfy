/** Summary text of a block: `derive_text` and `text_matches_lines` of
 *  crates/core/src/types.rs, with crates/core/src/label_policy.rs. */
module BlockText {
  import opened Wrappers

  /** Character classes of Unicode, which are not part of this model. */
  datatype Unicode = Unicode(white: char -> bool, alphabetic: char -> bool)

  datatype Direction = LeftToRight | RightToLeft | Vertical

  /** A source item, and whether it is an encoded hyphen. */
  datatype Item = Item(raw: string, encoded: bool)

  datatype Line = Line(text: string, items: seq<Item>, top: real, bottom: real, rotation: real, direction: Direction)

  /** Layout labels, one for all of those that share a policy; tables and contents pages
   *  are told apart. */
  datatype Label = Text | Title | Algorithm | Image | Formula | Chrome | Table | Content | Reference | Unknown

  datatype Policy =
    | FlowText | TitleText | AlgorithmText | Atomic | FormulaText | ChromeText | Structured | VisualOnly
    | UnknownText

  function PolicyOf(kind: Label): Policy {
    match kind
    case Text => FlowText
    case Title => TitleText
    case Algorithm => AlgorithmText
    case Image => Atomic
    case Formula => FormulaText
    case Chrome => ChromeText
    case Table => Structured
    case Content => Structured
    case Reference => VisualOnly
    case Unknown => UnknownText
  }

  predicate PreservesLineBreaks(p: Policy) {
    p == AlgorithmText || p == Structured || p == Atomic
  }

  predicate JoinsEncodedHyphens(p: Policy) {
    p == FlowText || p == TitleText
  }

  // ----- trimming -----

  function TrimEnd(u: Unicode, t: string): (r: string)
    ensures r <= t && (r != "" ==> !u.white(r[|r| - 1]))
  {
    if t != "" && u.white(t[|t| - 1]) then TrimEnd(u, t[..|t| - 1]) else t
  }

  function TrimStart(u: Unicode, t: string): string {
    if t != "" && u.white(t[0]) then TrimStart(u, t[1..]) else t
  }

  function Trim(u: Unicode, t: string): string {
    TrimEnd(u, TrimStart(u, t))
  }

  function LineText(u: Unicode, p: Policy, t: string): string {
    if PreservesLineBreaks(p) then TrimEnd(u, t) else Trim(u, t)
  }

  // ----- the boundary between two lines -----

  datatype Boundary = Space | Newline | PreserveHyphen

  function LastVisible(u: Unicode, items: seq<Item>): Option<Item> {
    if items == [] then None
    else if Trim(u, items[|items| - 1].raw) != "" then Some(items[|items| - 1])
    else LastVisible(u, items[..|items| - 1])
  }

  predicate EndsWithEncodedHyphen(u: Unicode, line: Line) {
    var t := TrimEnd(u, line.text);
    var last := LastVisible(u, line.items);
    t != "" && t[|t| - 1] == '-' && last.Some? && last.value.raw == "-" && last.value.encoded
  }

  function Max(a: real, b: real): real {
    if a > b then a else b
  }

  function BoundaryBetween(u: Unicode, p: Policy, previous: Line, next: Line): Boundary {
    if PreservesLineBreaks(p) then Newline
    else if !JoinsEncodedHyphens(p) then Space
    else
      var height := Max(Max(previous.bottom - previous.top, next.bottom - next.top), 1.0);
      var turn := previous.rotation - next.rotation;
      var t := Trim(u, next.text);
      if EndsWithEncodedHyphen(u, previous) && previous.direction == next.direction
         && previous.direction != Vertical && -2.0 <= turn <= 2.0
         && next.top - previous.top >= height * 0.5 && t != "" && u.alphabetic(t[0])
      then PreserveHyphen else Space
  }

  function Separator(u: Unicode, p: Policy, previous: Line, next: Line): string {
    match BoundaryBetween(u, p, previous, next)
    case Space => " "
    case Newline => "\n"
    case PreserveHyphen => ""
  }

  // ----- the text that belongs to the lines -----

  /** One piece of a structured projection: a row break, spaces and a body. */
  datatype Emission = Emission(newRow: bool, spaces: nat, body: string)

  function Blanks(n: nat): (s: string)
    ensures |s| == n && forall i :: 0 <= i < n ==> s[i] == ' '
  {
    seq(n, _ => ' ')
  }

  function Piece(e: Emission): string {
    (if e.newRow then "\n" else "") + Blanks(e.spaces) + e.body
  }

  function Projection(es: seq<Emission>): string {
    if es == [] then "" else Projection(es[..|es| - 1]) + Piece(es[|es| - 1])
  }

  /** The lines with text, and their text. */
  function NonEmpty(u: Unicode, p: Policy, lines: seq<Line>): seq<(Line, string)> {
    if lines == [] then []
    else
      var n := |lines| - 1;
      var t := LineText(u, p, lines[n].text);
      NonEmpty(u, p, lines[..n]) + if t == "" then [] else [(lines[n], t)]
  }

  function Joined(u: Unicode, p: Policy, ls: seq<(Line, string)>): string {
    if ls == [] then ""
    else
      var n := |ls| - 1;
      Joined(u, p, ls[..n]) + (if n > 0 then Separator(u, p, ls[n - 1].0, ls[n].0) else "") + ls[n].1
  }

  /** `Block::derive_text`; `es` is what the layout projection of the lines emits. */
  function DerivedText(u: Unicode, kind: Label, lines: seq<Line>, es: seq<Emission>): string {
    var p := PolicyOf(kind);
    if PreservesLineBreaks(p) then Projection(es) else Joined(u, p, NonEmpty(u, p, lines))
  }

  // ----- older stored texts -----

  function JoinWith(ts: seq<string>, separator: string): string {
    if ts == [] then ""
    else JoinWith(ts[..|ts| - 1], separator) + (if |ts| > 1 then separator else "") + ts[|ts| - 1]
  }

  function Texts(lines: seq<Line>, trim: string -> string): seq<string> {
    if lines == [] then []
    else
      var t := trim(lines[|lines| - 1].text);
      Texts(lines[..|lines| - 1], trim) + if t == "" then [] else [t]
  }

  function LineByLine(u: Unicode, lines: seq<Line>): string {
    JoinWith(Texts(lines, t => TrimEnd(u, t)), "\n")
  }

  function SpaceJoined(u: Unicode, lines: seq<Line>): string {
    JoinWith(Texts(lines, t => Trim(u, t)), " ")
  }

  datatype Block = Block(kind: Label, text: string, lines: seq<Line>, table: Option<string>)

  /** The texts the validator accepts, as a statement about whole texts. */
  predicate Accepts(u: Unicode, b: Block, es: seq<Emission>) {
    if b.table.Some? then b.kind == Table && b.text == b.table.value
    else if PreservesLineBreaks(PolicyOf(b.kind)) then
      || b.text == DerivedText(u, b.kind, b.lines, es)
      || b.text == LineByLine(u, b.lines)
      || ((b.kind == Content || b.kind == Table || PolicyOf(b.kind) == Atomic) && b.text == SpaceJoined(u, b.lines))
    else b.text == DerivedText(u, b.kind, b.lines, es)
  }

  // ----- building the text -----

  method BuildProjection(es: seq<Emission>) returns (text: string)
    ensures text == Projection(es)
  {
    text := "";
    assert es[..0] == [];
    for n := 0 to |es|
      invariant text == Projection(es[..n])
    {
      assert es[..n + 1][..n] == es[..n];
      ghost var before := text;
      if es[n].newRow {
        text := text + "\n";
      }
      text := text + Blanks(es[n].spaces);
      text := text + es[n].body;
      assert text == before + Piece(es[n]);
    }
    assert es[..|es|] == es;
  }

  method BuildFlow(u: Unicode, p: Policy, ls: seq<(Line, string)>) returns (text: string)
    ensures text == Joined(u, p, ls)
  {
    text := "";
    if ls == [] {
      return;
    }
    text := ls[0].1;
    assert ls[..1][..0] == [] && text == "" + "" + ls[0].1;
    for n := 1 to |ls|
      invariant text == Joined(u, p, ls[..n])
    {
      assert ls[..n + 1][..n] == ls[..n];
      match BoundaryBetween(u, p, ls[n - 1].0, ls[n].0) {
        case Space => text := text + " ";
        case Newline => text := text + "\n";
        case PreserveHyphen => text := text + "";
      }
      text := text + ls[n].1;
    }
    assert ls[..|ls|] == ls;
  }

  method BuildText(u: Unicode, kind: Label, lines: seq<Line>, es: seq<Emission>) returns (text: string)
    ensures text == DerivedText(u, kind, lines, es)
  {
    var p := PolicyOf(kind);
    if PreservesLineBreaks(p) {
      text := BuildProjection(es);
    } else {
      text := BuildFlow(u, p, NonEmpty(u, p, lines));
    }
  }

  // ----- comparing without building -----

  /** What is left of `text` after the prefix `w`. */
  function After(text: string, w: string): Option<string> {
    if w <= text then Some(text[|w|..]) else None
  }

  lemma SplitPrefix(text: string, w: string, x: string)
    requires w + x <= text
    ensures w <= text && x <= text[|w|..] && text[|w + x|..] == text[|w|..][|x|..]
  {
    assert (w + x)[..|w|] == w && (w + x)[|w|..] == x;
    assert text == (w + x) + text[|w + x|..];
  }

  lemma JoinPrefix(text: string, w: string, x: string)
    requires w <= text && x <= text[|w|..]
    ensures w + x <= text
  {
    assert text == w + text[|w|..];
  }

  lemma AfterMore(text: string, w: string, x: string)
    ensures After(text, w + x) == if After(text, w).Some? then After(After(text, w).value, x) else None
  {
    if w + x <= text {
      SplitPrefix(text, w, x);
    } else if w <= text {
      if x <= text[|w|..] { JoinPrefix(text, w, x); }
    }
  }

  lemma AfterAll(text: string, w: string)
    ensures After(text, w) == Some("") <==> text == w
  {
    if w <= text { assert text == w + text[|w|..]; }
  }

  /** The closure of the structured comparison: one emission off the front. */
  method StripEmission(tail: string, e: Emission) returns (r: Option<string>)
    ensures r == After(tail, Piece(e))
  {
    var t := tail;
    AfterMore(tail, if e.newRow then "\n" else "", Blanks(e.spaces));
    AfterMore(tail, (if e.newRow then "\n" else "") + Blanks(e.spaces), e.body);
    if e.newRow {
      if !("\n" <= t) {
        return None;
      }
      t := t[1..];
    } else {
      assert "" <= t && t[0..] == t;
    }
    if e.spaces > |t| {
      return None;
    }
    var padding := t[..e.spaces];
    if exists i :: 0 <= i < |padding| && padding[i] != ' ' {
      assert !(Blanks(e.spaces) <= t);
      return None;
    }
    assert padding == Blanks(e.spaces);
    t := t[e.spaces..];
    r := After(t, e.body);
  }

  method MatchesProjection(text: string, es: seq<Emission>) returns (ok: bool)
    ensures ok <==> text == Projection(es)
  {
    var remaining := Some(text);
    assert es[..0] == [] && "" <= text && text[0..] == text;
    for n := 0 to |es|
      invariant remaining == After(text, Projection(es[..n]))
    {
      assert es[..n + 1][..n] == es[..n];
      AfterMore(text, Projection(es[..n]), Piece(es[n]));
      if remaining.Some? {
        remaining := StripEmission(remaining.value, es[n]);
      }
    }
    assert es[..|es|] == es;
    AfterAll(text, Projection(es));
    ok := remaining == Some("");
  }

  /** The first `n` lines and the separator that follows them. */
  function Lead(u: Unicode, p: Policy, ls: seq<(Line, string)>, n: nat): string
    requires n <= |ls|
  {
    Joined(u, p, ls[..n]) + if 0 < n < |ls| then Separator(u, p, ls[n - 1].0, ls[n].0) else ""
  }

  lemma LeadNext(u: Unicode, p: Policy, ls: seq<(Line, string)>, n: nat)
    requires n < |ls|
    ensures Joined(u, p, ls[..n + 1]) == Lead(u, p, ls, n) + ls[n].1
    ensures Lead(u, p, ls, n + 1) == (Lead(u, p, ls, n) + ls[n].1)
            + if n + 1 < |ls| then Separator(u, p, ls[n].0, ls[n + 1].0) else ""
  {
    assert ls[..n + 1][..n] == ls[..n];
  }

  lemma {:induction false} LeadIsPrefix(u: Unicode, p: Policy, ls: seq<(Line, string)>, n: nat)
    requires n <= |ls|
    ensures Lead(u, p, ls, n) <= Joined(u, p, ls)
    ensures n < |ls| ==> Lead(u, p, ls, n) + ls[n].1 <= Joined(u, p, ls)
    decreases |ls| - n
  {
    if n < |ls| {
      LeadNext(u, p, ls, n);
      LeadIsPrefix(u, p, ls, n + 1);
      var whole := Joined(u, p, ls);
      PrefixOfPrefix(Lead(u, p, ls, n) + ls[n].1, Lead(u, p, ls, n + 1), whole);
      PrefixOfPrefix(Lead(u, p, ls, n), Lead(u, p, ls, n) + ls[n].1, whole);
    } else {
      assert ls[..n] == ls;
      assert Joined(u, p, ls) + "" == Joined(u, p, ls);
    }
  }

  lemma PrefixOfPrefix(a: string, b: string, c: string)
    requires a <= b <= c
    ensures a <= c
  {
    assert c[..|a|] == c[..|b|][..|a|];
  }

  /** The piece of `text` at `offset`, if there is one that long. */
  predicate PieceAt(text: string, offset: nat, w: string) {
    offset + |w| <= |text| && text[offset..offset + |w|] == w
  }

  lemma PieceOfPrefix(text: string, lead: string, w: string)
    requires lead + w <= text
    ensures PieceAt(text, |lead|, w)
  {
    assert text[..|lead + w|][|lead|..] == w;
  }

  /** Compares one piece of the text. */
  method Expect(text: string, offset: nat, w: string, ghost lead: string) returns (ok: bool, next: nat)
    requires lead <= text && offset == |lead|
    ensures ok <==> lead + w <= text
    ensures ok ==> next == |lead + w|
  {
    if lead + w <= text {
      PieceOfPrefix(text, lead, w);
    }
    next := offset + |w|;
    ok := PieceAt(text, offset, w);
    if ok {
      assert text[..next] == lead + w;
    }
  }

  /** Compares one line and the separator that follows it. */
  method MatchLine(u: Unicode, p: Policy, text: string, ls: seq<(Line, string)>, n: nat, offset: nat)
    returns (ok: bool, next: nat)
    requires n < |ls| && Lead(u, p, ls, n) <= text && offset == |Lead(u, p, ls, n)|
    ensures ok ==> Lead(u, p, ls, n + 1) <= text && next == |Lead(u, p, ls, n + 1)|
    ensures !ok ==> text != Joined(u, p, ls)
  {
    ghost var lead := Lead(u, p, ls, n);
    LeadNext(u, p, ls, n);
    LeadIsPrefix(u, p, ls, n);
    LeadIsPrefix(u, p, ls, n + 1);
    ok, next := Expect(text, offset, ls[n].1, lead);
    if !ok {
      return;
    }
    if n + 1 < |ls| {
      ok, next := Expect(text, next, Separator(u, p, ls[n].0, ls[n + 1].0), lead + ls[n].1);
    } else {
      assert (lead + ls[n].1) + "" == lead + ls[n].1;
    }
  }

  /** The flow comparison: an offset runs over the text, line by line. */
  method MatchesFlow(u: Unicode, p: Policy, text: string, ls: seq<(Line, string)>) returns (ok: bool)
    ensures ok <==> text == Joined(u, p, ls)
  {
    var offset := 0;
    var n := 0;
    assert ls[..0] == [] && "" <= text && Lead(u, p, ls, 0) == "";
    while n < |ls|
      invariant 0 <= n <= |ls|
      invariant Lead(u, p, ls, n) <= text && offset == |Lead(u, p, ls, n)|
    {
      ok, offset := MatchLine(u, p, text, ls, n, offset);
      if !ok {
        return;
      }
      n := n + 1;
    }
    FlowEnds(u, p, text, ls);
    ok := offset == |text|;
  }

  lemma FlowEnds(u: Unicode, p: Policy, text: string, ls: seq<(Line, string)>)
    requires Lead(u, p, ls, |ls|) <= text
    ensures |Lead(u, p, ls, |ls|)| == |text| <==> text == Joined(u, p, ls)
  {
    assert ls[..|ls|] == ls;
    var whole := Joined(u, p, ls);
    assert Lead(u, p, ls, |ls|) == whole;
    assert text == whole + text[|whole|..];
  }

  /** The streaming comparison accepts exactly what building the texts would accept. */
  method TextMatchesLines(u: Unicode, b: Block, es: seq<Emission>) returns (ok: bool)
    ensures ok <==> Accepts(u, b, es)
  {
    if b.table.Some? {
      return b.kind == Table && b.text == b.table.value;
    }
    var p := PolicyOf(b.kind);
    if PreservesLineBreaks(p) {
      ok := MatchesProjection(b.text, es);
      if ok {
        return;
      }
      ok := b.text == LineByLine(u, b.lines)
         || ((b.kind == Content || b.kind == Table || p == Atomic) && b.text == SpaceJoined(u, b.lines));
      return;
    }
    ok := MatchesFlow(u, p, b.text, NonEmpty(u, p, b.lines));
  }
}
