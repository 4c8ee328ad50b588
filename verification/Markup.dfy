/** Inline markup of one line: `Line::text_with_formatting` of crates/core/src/types.rs. */
module Markup {
  import opened Wrappers

  datatype Tag = U | S | Sup | Sub

  /** Bold and italic marks are the same to open and to close. */
  datatype Token = Bold | Italic | Open(tag: Tag) | Close(tag: Tag) | Raw(text: string)

  /** One source item; `size` and `base` are its font size and base line. */
  datatype Item = Item(text: string, bold: bool, italic: bool, underline: bool, strikeout: bool,
                       superscript: bool, subscript: bool, size: real, base: real)

  datatype Line = Line(text: string, items: seq<Item>, base: real)

  datatype Flags = Flags(bold: bool, italic: bool, decorations: bool, scripts: bool)

  /** The styles open between two items. */
  datatype Style = Style(bold: bool, italic: bool, underline: bool, strikeout: bool)

  const PLAIN := Style(false, false, false, false)

  // ----- which styles an item asks for -----

  function DominantSize(items: seq<Item>): real {
    if items == [] then 0.0
    else
      var rest := DominantSize(items[..|items| - 1]);
      var size := items[|items| - 1].size;
      if size > rest then size else rest
  }

  /** Superscript or subscript, by flag or by a small and shifted font. */
  function ScriptTag(line: Line, item: Item, dominant: real): Option<Tag> {
    if item.superscript then Some(Sup)
    else if item.subscript then Some(Sub)
    else if dominant <= 0.0 then None
    else if item.size / dominant > 0.85 then None
    else if line.base - item.base > dominant * 0.05 then Some(Sup)
    else if line.base - item.base < -(dominant * 0.05) then Some(Sub)
    else None
  }

  function Script(line: Line, flags: Flags, item: Item): (r: Option<Tag>)
    ensures r.Some? ==> r.value.Sup? || r.value.Sub?
  {
    if flags.scripts then ScriptTag(line, item, DominantSize(line.items)) else None
  }

  /** An item's own styles: strikeout wins over underline, and both over the fonts. */
  function Own(flags: Flags, item: Item): Style {
    var strikeout := flags.decorations && item.strikeout;
    var underline := flags.decorations && item.underline && !strikeout;
    Style(flags.bold && item.bold && !underline && !strikeout,
          flags.italic && item.italic && !underline && !strikeout,
          underline, strikeout)
  }

  /** Script items keep the font styles that are open around them. */
  function Wanted(line: Line, flags: Flags, before: Style, item: Item): Style {
    var own := Own(flags, item);
    if Script(line, flags, item).Some? then own.(bold := before.bold, italic := before.italic) else own
  }

  // ----- what is written -----

  function When(c: bool, t: Token): (r: seq<Token>) {
    if c then [t] else []
  }

  function Marks(ms: seq<(bool, Token)>): seq<Token> {
    if ms == [] then [] else Marks(ms[..|ms| - 1]) + When(ms[|ms| - 1].0, ms[|ms| - 1].1)
  }

  function Four(a: bool, s: Token, b: bool, t: Token, c: bool, u: Token, d: bool, v: Token): seq<Token> {
    Marks([(a, s), (b, t), (c, u), (d, v)])
  }

  function Closing(before: Style, want: Style): seq<Token> {
    Four(before.italic && !want.italic, Italic, before.bold && !want.bold, Bold,
         before.underline && !want.underline, Close(U), before.strikeout && !want.strikeout, Close(S))
  }

  function Opening(before: Style, want: Style): seq<Token> {
    Four(want.underline && !before.underline, Open(U), want.strikeout && !before.strikeout, Open(S),
         want.bold && !before.bold, Bold, want.italic && !before.italic, Italic)
  }

  function Body(script: Option<Tag>, text: string): seq<Token> {
    match script
    case None => [Raw(text)]
    case Some(tag) => [Open(tag), Raw(text), Close(tag)]
  }

  /** The styles open after the items, and what has been written. */
  function Emit(line: Line, flags: Flags, items: seq<Item>): (r: (Style, seq<Token>)) {
    if items == [] then (PLAIN, [])
    else
      var n := |items| - 1;
      var (before, tokens) := Emit(line, flags, items[..n]);
      if items[n].text == "" then (before, tokens)
      else
        var want := Wanted(line, flags, before, items[n]);
        (want, tokens + Closing(before, want) + Opening(before, want)
               + Body(Script(line, flags, items[n]), items[n].text))
  }

  predicate AnyFlag(flags: Flags) {
    flags.bold || flags.italic || flags.decorations || flags.scripts
  }

  /** Everything written for a line. */
  function Formatted(line: Line, flags: Flags): seq<Token> {
    if !AnyFlag(flags) then [Raw(line.text)]
    else
      var (style, tokens) := Emit(line, flags, line.items);
      tokens + Closing(style, PLAIN)
  }

  function TagName(tag: Tag): string {
    match tag
    case U => "u"
    case S => "s"
    case Sup => "sup"
    case Sub => "sub"
  }

  function Spell(t: Token): string {
    match t
    case Bold => "**"
    case Italic => "*"
    case Open(tag) => "<" + TagName(tag) + ">"
    case Close(tag) => "</" + TagName(tag) + ">"
    case Raw(text) => text
  }

  /** The tokens written one after the other. */
  function Write(ts: seq<Token>, spell: Token -> string): string {
    if ts == [] then "" else Write(ts[..|ts| - 1], spell) + spell(ts[|ts| - 1])
  }

  function Speller(): Token -> string {
    t => Spell(t)
  }

  function SpellAll(ts: seq<Token>): string {
    Write(ts, Speller())
  }

  // ----- nothing but markup is added -----

  function Erase(ts: seq<Token>): string {
    if ts == [] then ""
    else
      var last := ts[|ts| - 1];
      Erase(ts[..|ts| - 1]) + if last.Raw? then last.text else ""
  }

  /** `Line::derive_text`: the source text. */
  function RawText(items: seq<Item>): string {
    if items == [] then "" else RawText(items[..|items| - 1]) + items[|items| - 1].text
  }

  lemma {:induction false} EraseAppend(a: seq<Token>, b: seq<Token>)
    ensures Erase(a + b) == Erase(a) + Erase(b)
  {
    if b == [] {
      assert a + b == a;
    } else {
      var n := |b| - 1;
      assert (a + b)[..|a + b| - 1] == a + b[..n];
      EraseAppend(a, b[..n]);
    }
  }

  lemma EraseOne(t: Token)
    ensures Erase([t]) == if t.Raw? then t.text else ""
  {
    assert Erase([t][..0]) == "";
  }

  lemma FourMarks(a: bool, s: Token, b: bool, t: Token, c: bool, u: Token, d: bool, v: Token)
    ensures Four(a, s, b, t, c, u, d, v) == ((When(a, s) + When(b, t)) + When(c, u)) + When(d, v)
  {
    var ms := [(a, s), (b, t), (c, u), (d, v)];
    assert ms[..3] == [(a, s), (b, t), (c, u)] && ms[..3][..2] == [(a, s), (b, t)];
    assert ms[..3][..2][..1] == [(a, s)] && ms[..3][..2][..1][..0] == [];
    assert Marks([(a, s)]) == [] + When(a, s) == When(a, s);
    assert Marks([(a, s), (b, t)]) == When(a, s) + When(b, t);
    assert Marks([(a, s), (b, t), (c, u)]) == (When(a, s) + When(b, t)) + When(c, u);
  }

  lemma {:induction false} MarksErase(ms: seq<(bool, Token)>)
    requires forall i :: 0 <= i < |ms| ==> !ms[i].1.Raw?
    ensures Erase(Marks(ms)) == ""
  {
    if ms != [] {
      var n := |ms| - 1;
      MarksErase(ms[..n]);
      EraseOne(ms[n].1);
      EraseAppend(Marks(ms[..n]), When(ms[n].0, ms[n].1));
    }
  }

  lemma ChangesErase(before: Style, want: Style)
    ensures Erase(Closing(before, want)) == "" && Erase(Opening(before, want)) == ""
  {
    MarksErase([(before.italic && !want.italic, Italic), (before.bold && !want.bold, Bold),
                (before.underline && !want.underline, Close(U)), (before.strikeout && !want.strikeout, Close(S))]);
    MarksErase([(want.underline && !before.underline, Open(U)), (want.strikeout && !before.strikeout, Open(S)),
                (want.bold && !before.bold, Bold), (want.italic && !before.italic, Italic)]);
  }

  lemma ThreeTokens(tag: Tag, text: string)
    ensures Body(Some(tag), text) == [Open(tag)] + [Raw(text)] + [Close(tag)]
  {
  }

  lemma BodyErases(script: Option<Tag>, text: string)
    ensures Erase(Body(script, text)) == text
  {
    EraseOne(Raw(text));
    if script.Some? {
      var tag := script.value;
      ThreeTokens(tag, text);
      EraseOne(Open(tag));
      EraseOne(Close(tag));
      EraseAppend([Open(tag)], [Raw(text)]);
      EraseAppend([Open(tag)] + [Raw(text)], [Close(tag)]);
    }
  }

  lemma ItemErases(tokens: seq<Token>, before: Style, want: Style, script: Option<Tag>, text: string)
    ensures Erase(tokens + Closing(before, want) + Opening(before, want) + Body(script, text)) == Erase(tokens) + text
  {
    ChangesErase(before, want);
    BodyErases(script, text);
    EraseAppend(tokens, Closing(before, want));
    EraseAppend(tokens + Closing(before, want), Opening(before, want));
    EraseAppend(tokens + Closing(before, want) + Opening(before, want), Body(script, text));
  }

  lemma {:induction false} EmitErases(line: Line, flags: Flags, items: seq<Item>)
    ensures Erase(Emit(line, flags, items).1) == RawText(items)
  {
    if items != [] {
      var n := |items| - 1;
      var (before, tokens) := Emit(line, flags, items[..n]);
      EmitErases(line, flags, items[..n]);
      ItemErases(tokens, before, Wanted(line, flags, before, items[n]), Script(line, flags, items[n]), items[n].text);
    }
  }

  /** For every item sequence and all sixteen flag settings, erasing the markup gives the
   *  source text back; without any flag the stored line text is returned as it is. */
  lemma OnlyMarkupIsAdded(line: Line, flags: Flags)
    ensures Erase(Formatted(line, flags))
         == if flags == Flags(false, false, false, false) then line.text else RawText(line.items)
  {
    if AnyFlag(flags) {
      var (style, tokens) := Emit(line, flags, line.items);
      EmitErases(line, flags, line.items);
      ChangesErase(style, PLAIN);
      EraseAppend(tokens, Closing(style, PLAIN));
    } else {
      assert [Raw(line.text)][..0] == [];
    }
  }

  // ----- the markup is well formed -----

  /** Reading the markup back: which styles are open, and which script tag. */
  datatype Reader = Reader(style: Style, script: Option<Tag>) | Broken

  /** A tag may open only when it is closed and, for underline and strikeout, when the
   *  other one is closed too; nothing but text stands inside a script tag. */
  function Read(r: Reader, t: Token): Reader {
    if r.Broken? then Broken
    else
      var s := r.style;
      match t
      case Raw(_) => r
      case Bold => if r.script.None? then r.(style := s.(bold := !s.bold)) else Broken
      case Italic => if r.script.None? then r.(style := s.(italic := !s.italic)) else Broken
      case Open(tag) =>
        if r.script.Some? then Broken
        else if tag == U then (if s.underline || s.strikeout then Broken else r.(style := s.(underline := true)))
        else if tag == S then (if s.underline || s.strikeout then Broken else r.(style := s.(strikeout := true)))
        else r.(script := Some(tag))
      case Close(tag) =>
        if tag == U then (if s.underline && r.script.None? then r.(style := s.(underline := false)) else Broken)
        else if tag == S then (if s.strikeout && r.script.None? then r.(style := s.(strikeout := false)) else Broken)
        else if r.script == Some(tag) then r.(script := None) else Broken
  }

  function ReadAll(r: Reader, ts: seq<Token>): Reader {
    if ts == [] then r else Read(ReadAll(r, ts[..|ts| - 1]), ts[|ts| - 1])
  }

  lemma {:induction false} ReadAppend(r: Reader, a: seq<Token>, b: seq<Token>)
    ensures ReadAll(r, a + b) == ReadAll(ReadAll(r, a), b)
  {
    if b == [] {
      assert a + b == a;
    } else {
      var n := |b| - 1;
      assert (a + b)[..|a + b| - 1] == a + b[..n];
      ReadAppend(r, a, b[..n]);
    }
  }

  lemma ReadOne(r: Reader, t: Token)
    ensures ReadAll(r, [t]) == Read(r, t)
  {
    assert ReadAll(r, [t][..0]) == r;
  }

  function Maybe(r: Reader, c: bool, t: Token): Reader {
    if c then Read(r, t) else r
  }

  lemma ReadFour(r: Reader, a: bool, s: Token, b: bool, t: Token, c: bool, u: Token, d: bool, v: Token)
    ensures ReadAll(r, Four(a, s, b, t, c, u, d, v)) == Maybe(Maybe(Maybe(Maybe(r, a, s), b, t), c, u), d, v)
  {
    FourMarks(a, s, b, t, c, u, d, v);
    ReadAppend(r, When(a, s), When(b, t));
    ReadAppend(r, When(a, s) + When(b, t), When(c, u));
    ReadAppend(r, When(a, s) + When(b, t) + When(c, u), When(d, v));
    ReadOne(r, s);
    ReadOne(Maybe(r, a, s), t);
    ReadOne(Maybe(Maybe(r, a, s), b, t), u);
    ReadOne(Maybe(Maybe(Maybe(r, a, s), b, t), c, u), v);
  }

  predicate Exclusive(s: Style) {
    !(s.underline && s.strikeout)
  }

  /** The styles that stay open between two items. */
  function Kept(before: Style, want: Style): Style {
    Style(before.bold && want.bold, before.italic && want.italic,
          before.underline && want.underline, before.strikeout && want.strikeout)
  }

  lemma ReadClosing(before: Style, want: Style)
    ensures ReadAll(Reader(before, None), Closing(before, want)) == Reader(Kept(before, want), None)
  {
    ReadFour(Reader(before, None), before.italic && !want.italic, Italic, before.bold && !want.bold, Bold,
             before.underline && !want.underline, Close(U), before.strikeout && !want.strikeout, Close(S));
    MaybeClosing(before, want);
  }

  lemma MaybeClosing(before: Style, want: Style)
    ensures Maybe(Maybe(Maybe(Maybe(Reader(before, None), before.italic && !want.italic, Italic),
                              before.bold && !want.bold, Bold),
                        before.underline && !want.underline, Close(U)),
                  before.strikeout && !want.strikeout, Close(S)) == Reader(Kept(before, want), None)
  {
    var a := before.(italic := before.italic && want.italic);
    var b := a.(bold := before.bold && want.bold);
    var c := b.(underline := before.underline && want.underline);
    assert Maybe(Reader(before, None), before.italic && !want.italic, Italic) == Reader(a, None);
    assert Maybe(Reader(a, None), before.bold && !want.bold, Bold) == Reader(b, None);
    assert Maybe(Reader(b, None), before.underline && !want.underline, Close(U)) == Reader(c, None);
  }

  lemma ReadOpening(before: Style, want: Style)
    requires Exclusive(want)
    ensures ReadAll(Reader(Kept(before, want), None), Opening(before, want)) == Reader(want, None)
  {
    ReadFour(Reader(Kept(before, want), None), want.underline && !before.underline, Open(U),
             want.strikeout && !before.strikeout, Open(S), want.bold && !before.bold, Bold,
             want.italic && !before.italic, Italic);
    MaybeOpening(before, want);
  }

  lemma MaybeOpening(before: Style, want: Style)
    requires Exclusive(want)
    ensures Maybe(Maybe(Maybe(Maybe(Reader(Kept(before, want), None), want.underline && !before.underline, Open(U)),
                              want.strikeout && !before.strikeout, Open(S)),
                        want.bold && !before.bold, Bold),
                  want.italic && !before.italic, Italic) == Reader(want, None)
  {
    var k := Kept(before, want);
    var a := k.(underline := want.underline);
    var b := a.(strikeout := want.strikeout);
    var c := b.(bold := want.bold);
    assert Maybe(Reader(k, None), want.underline && !before.underline, Open(U)) == Reader(a, None);
    assert Maybe(Reader(a, None), want.strikeout && !before.strikeout, Open(S)) == Reader(b, None);
    assert Maybe(Reader(b, None), want.bold && !before.bold, Bold) == Reader(c, None);
  }

  lemma ReadBody(style: Style, script: Option<Tag>, text: string)
    requires script.Some? ==> script.value.Sup? || script.value.Sub?
    ensures ReadAll(Reader(style, None), Body(script, text)) == Reader(style, None)
  {
    ReadOne(Reader(style, None), Raw(text));
    if script.Some? {
      var tag := script.value;
      ThreeTokens(tag, text);
      ReadAppend(Reader(style, None), [Open(tag)], [Raw(text)]);
      ReadAppend(Reader(style, None), [Open(tag)] + [Raw(text)], [Close(tag)]);
      ReadOne(Reader(style, None), Open(tag));
      ReadOne(Reader(style, Some(tag)), Raw(text));
      ReadOne(Reader(style, Some(tag)), Close(tag));
    }
  }

  lemma {:induction false} EmitReads(line: Line, flags: Flags, items: seq<Item>)
    ensures var (style, tokens) := Emit(line, flags, items);
            Exclusive(style) && ReadAll(Reader(PLAIN, None), tokens) == Reader(style, None)
  {
    if items != [] {
      var n := |items| - 1;
      var (before, tokens) := Emit(line, flags, items[..n]);
      EmitReads(line, flags, items[..n]);
      if items[n].text != "" {
        var want := Wanted(line, flags, before, items[n]);
        var r := Reader(PLAIN, None);
        ReadAppend(r, tokens, Closing(before, want));
        ReadAppend(r, tokens + Closing(before, want), Opening(before, want));
        ReadAppend(r, tokens + Closing(before, want) + Opening(before, want),
                   Body(Script(line, flags, items[n]), items[n].text));
        ReadClosing(before, want);
        ReadOpening(before, want);
        ReadBody(want, Script(line, flags, items[n]), items[n].text);
      }
    }
  }

  /** Every style's opens and closes alternate and end closed, and underline and strikeout
   *  are never open together. */
  lemma MarkupIsClosed(line: Line, flags: Flags)
    ensures ReadAll(Reader(PLAIN, None), Formatted(line, flags)) == Reader(PLAIN, None)
  {
    if AnyFlag(flags) {
      var (style, tokens) := Emit(line, flags, line.items);
      EmitReads(line, flags, line.items);
      ReadAppend(Reader(PLAIN, None), tokens, Closing(style, PLAIN));
      ReadClosing(style, PLAIN);
    } else {
      assert [Raw(line.text)][..0] == [];
    }
  }

  /** The HTML tags alone: a stack of open tags. */
  function Nest(stack: Option<seq<Tag>>, t: Token): Option<seq<Tag>> {
    if stack.None? then None
    else
      match t
      case Open(tag) => Some(stack.value + [tag])
      case Close(tag) =>
        var n := |stack.value|;
        if n > 0 && stack.value[n - 1] == tag then Some(stack.value[..n - 1]) else None
      case _ => stack
  }

  function NestAll(ts: seq<Token>): Option<seq<Tag>> {
    if ts == [] then Some([]) else Nest(NestAll(ts[..|ts| - 1]), ts[|ts| - 1])
  }

  function OpenTags(r: Reader): seq<Tag>
    requires r.Reader?
  {
    var script := if r.script.Some? then [r.script.value] else [];
    if r.style.underline then [U] + script else if r.style.strikeout then [S] + script else script
  }

  lemma ReadNests(r: Reader, t: Token)
    requires r.Reader? && Exclusive(r.style) && Read(r, t).Reader?
    requires r.script.Some? ==> r.script.value.Sup? || r.script.value.Sub?
    ensures Exclusive(Read(r, t).style)
    ensures Read(r, t).script.Some? ==> Read(r, t).script.value.Sup? || Read(r, t).script.value.Sub?
    ensures Nest(Some(OpenTags(r)), t) == Some(OpenTags(Read(r, t)))
  {
    var tags := OpenTags(r);
    match t
    case Open(tag) => assert tags + [tag] == OpenTags(Read(r, t));
    case Close(tag) => assert tags[|tags| - 1] == tag && tags[..|tags| - 1] == OpenTags(Read(r, t));
    case _ =>
  }

  /** Whatever reads back without a break has well-nested HTML tags. */
  lemma {:induction false} ReadAllNests(ts: seq<Token>)
    requires ReadAll(Reader(PLAIN, None), ts).Reader?
    ensures var r: Reader := ReadAll(Reader(PLAIN, None), ts);
            && Exclusive(r.style) && (r.script.Some? ==> r.script.value.Sup? || r.script.value.Sub?)
            && NestAll(ts) == Some(OpenTags(r))
  {
    if ts != [] {
      ReadAllNests(ts[..|ts| - 1]);
      ReadNests(ReadAll(Reader(PLAIN, None), ts[..|ts| - 1]), ts[|ts| - 1]);
    }
  }

  /** The HTML tags of a formatted line are well nested and all closed. */
  lemma TagsAreNested(line: Line, flags: Flags)
    ensures NestAll(Formatted(line, flags)) == Some([])
  {
    MarkupIsClosed(line, flags);
    ReadAllNests(Formatted(line, flags));
  }

  // ----- fonts inside decorations -----

  /** The last item before `n` that is neither empty nor a script. */
  function LastPlain(line: Line, flags: Flags, items: seq<Item>): Option<Item> {
    if items == [] then None
    else
      var last := items[|items| - 1];
      if last.text != "" && Script(line, flags, last).None? then Some(last)
      else LastPlain(line, flags, items[..|items| - 1])
  }

  lemma {:induction false} BoldComesFromLastPlain(line: Line, flags: Flags, items: seq<Item>)
    ensures var last := LastPlain(line, flags, items);
            Emit(line, flags, items).0.bold == (last.Some? && Own(flags, last.value).bold)
  {
    if items != [] {
      BoldComesFromLastPlain(line, flags, items[..|items| - 1]);
    }
  }

  /** The documentation says that bold is left out inside an underline or a strikeout. The
   *  text of the `n`-th item is bold inside one exactly when it is a script with its own
   *  decoration and the last plain item before it is bold. */
  lemma BoldInsideIff(line: Line, flags: Flags, n: nat)
    requires n < |line.items| && line.items[n].text != ""
    ensures var style := Emit(line, flags, line.items[..n + 1]).0;
            var item, last := line.items[n], LastPlain(line, flags, line.items[..n]);
            style.bold && (style.underline || style.strikeout) <==>
              && Script(line, flags, item).Some? && (Own(flags, item).underline || Own(flags, item).strikeout)
              && last.Some? && Own(flags, last.value).bold
  {
    var items := line.items[..n + 1];
    assert items[..n] == line.items[..n];
    BoldComesFromLastPlain(line, flags, line.items[..n]);
  }

  lemma {:induction false} ItalicComesFromLastPlain(line: Line, flags: Flags, items: seq<Item>)
    ensures var last := LastPlain(line, flags, items);
            Emit(line, flags, items).0.italic == (last.Some? && Own(flags, last.value).italic)
  {
    if items != [] {
      ItalicComesFromLastPlain(line, flags, items[..|items| - 1]);
    }
  }

  /** Italic gets inside a decoration in the same way. */
  lemma ItalicInsideIff(line: Line, flags: Flags, n: nat)
    requires n < |line.items| && line.items[n].text != ""
    ensures var style := Emit(line, flags, line.items[..n + 1]).0;
            var item, last := line.items[n], LastPlain(line, flags, line.items[..n]);
            style.italic && (style.underline || style.strikeout) <==>
              && Script(line, flags, item).Some? && (Own(flags, item).underline || Own(flags, item).strikeout)
              && last.Some? && Own(flags, last.value).italic
  {
    var items := line.items[..n + 1];
    assert items[..n] == line.items[..n];
    ItalicComesFromLastPlain(line, flags, line.items[..n]);
  }

  const LETTER := Item("a", true, false, false, false, false, false, 10.0, 0.0)
  const MARK := Item("b", false, false, true, false, true, false, 10.0, 0.0)
  const ALL := Flags(true, true, true, true)

  lemma EmitNext(line: Line, flags: Flags, items: seq<Item>, item: Item)
    requires item.text != ""
    ensures var (before, tokens) := Emit(line, flags, items);
            var want := Wanted(line, flags, before, item);
            Emit(line, flags, items + [item]) ==
              (want, tokens + Closing(before, want) + Opening(before, want)
                     + Body(Script(line, flags, item), item.text))
  {
    assert (items + [item])[..|items|] == items;
  }

  const PAIR := Line("ab", [LETTER, MARK], 0.0)
  const BOLD := Style(true, false, false, false)
  const BOTH := Style(true, false, true, false)

  lemma PairStyles()
    ensures Script(PAIR, ALL, LETTER) == None && Wanted(PAIR, ALL, PLAIN, LETTER) == BOLD
    ensures Script(PAIR, ALL, MARK) == Some(Sup) && Wanted(PAIR, ALL, BOLD, MARK) == BOTH
  {
    DominantOfTwo();
  }

  lemma PairMarks()
    ensures Closing(PLAIN, BOLD) == [] && Opening(PLAIN, BOLD) == [Bold]
    ensures Closing(BOLD, BOTH) == [] && Opening(BOLD, BOTH) == [Open(U)]
    ensures Closing(BOTH, PLAIN) == [Bold, Close(U)]
  {
    FourMarks(false, Italic, false, Bold, false, Close(U), false, Close(S));
    FourMarks(false, Open(U), false, Open(S), true, Bold, false, Italic);
    FourMarks(true, Open(U), false, Open(S), false, Bold, false, Italic);
    FourMarks(false, Italic, true, Bold, true, Close(U), false, Close(S));
  }

  lemma LetterEmits()
    ensures Emit(PAIR, ALL, [LETTER]) == (BOLD, [Bold, Raw("a")])
  {
    PairStyles();
    PairMarks();
    EmitNext(PAIR, ALL, [], LETTER);
    var none: seq<Item>, empty: seq<Token> := [], [];
    assert none + [LETTER] == [LETTER];
    assert empty + empty + [Bold] + [Raw("a")] == [Bold, Raw("a")];
  }

  /** A bold letter followed by an underlined superscript: bold closes inside the underline. */
  lemma BoldClosesInsideUnderline()
    ensures Formatted(PAIR, ALL) == [Bold, Raw("a")] + [Open(U), Open(Sup), Raw("b"), Close(Sup)] + [Bold, Close(U)]
  {
    LetterEmits();
    PairStyles();
    PairMarks();
    EmitNext(PAIR, ALL, [LETTER], MARK);
    assert [LETTER] + [MARK] == PAIR.items;
    var empty: seq<Token>, body := [], [Open(Sup), Raw("b"), Close(Sup)];
    assert [Bold, Raw("a")] + empty + [Open(U)] + body == [Bold, Raw("a")] + [Open(U), Open(Sup), Raw("b"), Close(Sup)];
  }

  lemma DominantOfTwo()
    ensures DominantSize([LETTER, MARK]) == 10.0
  {
    var items := [LETTER, MARK];
    assert items[..1] == [LETTER] && items[..1][..0] == [];
    assert DominantSize(items[..1]) == 10.0;
  }

  // ----- the loop -----

  method DominantFontSize(items: seq<Item>) returns (size: real)
    ensures size == DominantSize(items)
  {
    size := 0.0;
    assert items[..0] == [];
    for n := 0 to |items|
      invariant size == DominantSize(items[..n])
    {
      assert items[..n + 1][..n] == items[..n];
      if items[n].size > size {
        size := items[n].size;
      }
    }
    assert items[..|items|] == items;
  }

  lemma {:induction false} WriteAppend(a: seq<Token>, b: seq<Token>, spell: Token -> string)
    ensures Write(a + b, spell) == Write(a, spell) + Write(b, spell)
  {
    if b == [] {
      assert a + b == a;
    } else {
      var n := |b| - 1;
      assert (a + b)[..|a + b| - 1] == a + b[..n];
      WriteAppend(a, b[..n], spell);
    }
  }

  lemma SpellAppend(a: seq<Token>, b: seq<Token>)
    ensures SpellAll(a + b) == SpellAll(a) + SpellAll(b)
  {
    WriteAppend(a, b, Speller());
  }

  lemma SpellOne(t: Token)
    ensures SpellAll([t]) == Spell(t)
  {
    assert [t][..0] == [];
    assert Write([t], Speller()) == Write([t][..0], Speller()) + Speller()(t);
  }

  lemma SpellPush(tokens: seq<Token>, c: bool, t: Token)
    ensures SpellAll(tokens + When(c, t)) == SpellAll(tokens) + if c then Spell(t) else ""
  {
    SpellOne(t);
    SpellAppend(tokens, When(c, t));
  }

  lemma FourAfter(tokens: seq<Token>, a: bool, s: Token, b: bool, t: Token, c: bool, u: Token, d: bool, v: Token)
    ensures tokens + Four(a, s, b, t, c, u, d, v) == (((tokens + When(a, s)) + When(b, t)) + When(c, u)) + When(d, v)
  {
    FourMarks(a, s, b, t, c, u, d, v);
  }

  method PushWhen(result: string, c: bool, t: Token, ghost tokens: seq<Token>) returns (r: string)
    requires result == SpellAll(tokens)
    ensures r == SpellAll(tokens + When(c, t))
  {
    r := result;
    if c {
      r := r + Spell(t);
    }
    SpellPush(tokens, c, t);
  }

  /** Closes the styles that are not wanted any more. */
  method CloseStyles(result: string, before: Style, want: Style, ghost tokens: seq<Token>)
    returns (r: string, open: Style)
    requires result == SpellAll(tokens)
    ensures r == SpellAll(tokens + Closing(before, want)) && open == Kept(before, want)
  {
    var italic, bold := before.italic && !want.italic, before.bold && !want.bold;
    var underline, strikeout := before.underline && !want.underline, before.strikeout && !want.strikeout;
    FourAfter(tokens, italic, Italic, bold, Bold, underline, Close(U), strikeout, Close(S));
    ghost var w1 := tokens + When(italic, Italic);
    ghost var w2 := w1 + When(bold, Bold);
    ghost var w3 := w2 + When(underline, Close(U));
    r := PushWhen(result, italic, Italic, tokens);
    r := PushWhen(r, bold, Bold, w1);
    r := PushWhen(r, underline, Close(U), w2);
    r := PushWhen(r, strikeout, Close(S), w3);
    open := Style(before.bold && !bold, before.italic && !italic,
                  before.underline && !underline, before.strikeout && !strikeout);
  }

  /** Opens the wanted styles that are closed. */
  method OpenStyles(result: string, open: Style, want: Style, ghost tokens: seq<Token>) returns (r: string)
    requires result == SpellAll(tokens)
    ensures r == SpellAll(tokens + Opening(open, want))
  {
    var underline, strikeout := want.underline && !open.underline, want.strikeout && !open.strikeout;
    var bold, italic := want.bold && !open.bold, want.italic && !open.italic;
    FourAfter(tokens, underline, Open(U), strikeout, Open(S), bold, Bold, italic, Italic);
    ghost var w1 := tokens + When(underline, Open(U));
    ghost var w2 := w1 + When(strikeout, Open(S));
    ghost var w3 := w2 + When(bold, Bold);
    r := PushWhen(result, underline, Open(U), tokens);
    r := PushWhen(r, strikeout, Open(S), w1);
    r := PushWhen(r, bold, Bold, w2);
    r := PushWhen(r, italic, Italic, w3);
  }

  lemma SpellBody(script: Option<Tag>, text: string)
    ensures SpellAll(Body(script, text)) ==
            if script.None? then text
            else "<" + TagName(script.value) + ">" + text + "</" + TagName(script.value) + ">"
  {
    SpellOne(Raw(text));
    if script.Some? {
      var tag := script.value;
      ThreeTokens(tag, text);
      SpellOne(Open(tag));
      SpellOne(Close(tag));
      SpellAppend([Open(tag)], [Raw(text)]);
      SpellAppend([Open(tag)] + [Raw(text)], [Close(tag)]);
    }
  }

  method TextWithFormatting(line: Line, flags: Flags) returns (result: string)
    ensures result == SpellAll(Formatted(line, flags))
  {
    if !AnyFlag(flags) {
      SpellOne(Raw(line.text));
      return line.text;
    }
    var dominant := 0.0;
    if flags.scripts {
      dominant := DominantFontSize(line.items);
    }
    result := "";
    var style := PLAIN;
    assert line.items[..0] == [];
    for n := 0 to |line.items|
      invariant style == Emit(line, flags, line.items[..n]).0
      invariant result == SpellAll(Emit(line, flags, line.items[..n]).1)
    {
      assert line.items[..n + 1][..n] == line.items[..n];
      var item := line.items[n];
      if item.text != "" {
        var script := if flags.scripts then ScriptTag(line, item, dominant) else None;
        var want := Own(flags, item);
        if script.Some? {
          want := want.(bold := style.bold, italic := style.italic);
        }
        result, style := WriteItem(result, style, want, script, item.text, Emit(line, flags, line.items[..n]).1);
      }
    }
    assert line.items[..|line.items|] == line.items;
    result, style := CloseStyles(result, style, PLAIN, Emit(line, flags, line.items).1);
  }

  method WriteItem(result: string, style: Style, want: Style, script: Option<Tag>, text: string,
                   ghost tokens: seq<Token>)
    returns (r: string, after: Style)
    requires result == SpellAll(tokens)
    ensures r == SpellAll(tokens + Closing(style, want) + Opening(style, want) + Body(script, text)) && after == want
  {
    var open;
    r, open := CloseStyles(result, style, want, tokens);
    SameOpening(style, want);
    r := OpenStyles(r, open, want, tokens + Closing(style, want));
    SpellBody(script, text);
    SpellAppend(tokens + Closing(style, want) + Opening(style, want), Body(script, text));
    match script {
      case None => r := r + text;
      case Some(tag) => r := r + ("<" + TagName(tag) + ">" + text + "</" + TagName(tag) + ">");
    }
    after := want;
  }

  /** What is opened is the same seen from the styles before or after closing. */
  lemma SameOpening(before: Style, want: Style)
    ensures Opening(Kept(before, want), want) == Opening(before, want)
  {
    var k := Kept(before, want);
    assert (want.underline && !k.underline) == (want.underline && !before.underline);
    assert (want.strikeout && !k.strikeout) == (want.strikeout && !before.strikeout);
    assert (want.bold && !k.bold) == (want.bold && !before.bold);
    assert (want.italic && !k.italic) == (want.italic && !before.italic);
  }
}
