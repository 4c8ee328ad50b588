/** What a formatted line of crates/core/src/types.rs looks like as text, and which items it
 *  raises or lowers. */
module MarkupLaws {
  import opened Markup
  import opened Wrappers

  // ----- which items are raised or lowered -----

  /** The largest font size of the line, or zero. */
  ghost predicate IsLargest(items: seq<Item>, size: real) {
    && size >= 0.0
    && (forall i :: 0 <= i < |items| ==> items[i].size <= size)
    && (size > 0.0 ==> exists i :: 0 <= i < |items| && items[i].size == size)
  }

  lemma {:induction false} DominantIsLargest(items: seq<Item>)
    ensures IsLargest(items, DominantSize(items))
  {
    if items != [] {
      var n := |items| - 1;
      DominantIsLargest(items[..n]);
      var rest := DominantSize(items[..n]);
      if items[n].size <= rest && rest > 0.0 {
        var i :| 0 <= i < n && items[..n][i].size == rest;
        assert items[i].size == rest;
      }
    }
  }

  /** Small next to the largest item, and moved by more than a twentieth of its size. */
  predicate Moved(item: Item, largest: real, shift: real) {
    largest > 0.0 && 20.0 * item.size <= 17.0 * largest && 20.0 * shift > largest
  }

  lemma SmallEnough(size: real, dominant: real)
    requires dominant > 0.0
    ensures size / dominant > 0.85 <==> 20.0 * size > 17.0 * dominant
  {
    var q := size / dominant;
    assert q * dominant == size;
    if q > 0.85 {
      assert (q - 0.85) * dominant > 0.0;
    } else {
      assert (0.85 - q) * dominant >= 0.0;
    }
  }

  /** An item is raised when it is flagged so, or, without any flag, when it is small and
   *  its base line lies above that of the line; it is lowered in the mirrored case. */
  lemma ScriptIff(line: Line, flags: Flags, item: Item, largest: real)
    requires IsLargest(line.items, largest) && flags.scripts
    ensures var script := Script(line, flags, item);
            && (script == Some(Sup) <==>
                  item.superscript || (!item.subscript && Moved(item, largest, line.base - item.base)))
            && (script == Some(Sub) <==>
                  !item.superscript
                  && (item.subscript || Moved(item, largest, item.base - line.base)))
  {
    DominantIsLargest(line.items);
    var dominant := DominantSize(line.items);
    LargestIsUnique(line.items, dominant, largest);
    if dominant > 0.0 { SmallEnough(item.size, dominant); }
  }

  lemma LargestIsUnique(items: seq<Item>, a: real, b: real)
    requires IsLargest(items, a) && IsLargest(items, b)
    ensures a == b
  {
  }

  // ----- the written text of one item -----

  function Word(c: bool, w: string): string {
    if c then w else ""
  }

  lemma SpellFour(a: bool, s: Token, b: bool, t: Token, c: bool, u: Token, d: bool, v: Token)
    ensures SpellAll(Four(a, s, b, t, c, u, d, v))
         == Word(a, Spell(s)) + Word(b, Spell(t)) + Word(c, Spell(u)) + Word(d, Spell(v))
  {
    FourMarks(a, s, b, t, c, u, d, v);
    SpellFirst(a, s);
    SpellNext(When(a, s), b, t);
    SpellNext(When(a, s) + When(b, t), c, u);
    SpellNext((When(a, s) + When(b, t)) + When(c, u), d, v);
  }

  lemma SpellFirst(c: bool, t: Token)
    ensures SpellAll(When(c, t)) == Word(c, Spell(t))
  {
    SpellOne(t);
  }

  lemma SpellNext(tokens: seq<Token>, c: bool, t: Token)
    ensures SpellAll(tokens + When(c, t)) == SpellAll(tokens) + Word(c, Spell(t))
  {
    SpellPush(tokens, c, t);
  }

  lemma SpelledTags()
    ensures Spell(Open(U)) == "<u>" && Spell(Open(S)) == "<s>" && Spell(Bold) == "**" && Spell(Italic) == "*"
    ensures Spell(Close(U)) == "</u>" && Spell(Close(S)) == "</s>"
  {
    assert "<" + "u" + ">" == "<u>" && "<" + "s" + ">" == "<s>";
    assert "</" + "u" + ">" == "</u>" && "</" + "s" + ">" == "</s>";
  }

  /** What stands before and after an item of this style when nothing else is open. */
  function Before(style: Style): string {
    Word(style.underline, "<u>") + Word(style.strikeout, "<s>") + Word(style.bold, "**") + Word(style.italic, "*")
  }

  function Behind(style: Style): string {
    Word(style.italic, "*") + Word(style.bold, "**") + Word(style.underline, "</u>") + Word(style.strikeout, "</s>")
  }

  lemma SpellOpening(style: Style)
    ensures SpellAll(Opening(PLAIN, style)) == Before(style)
  {
    SpelledTags();
    SpellFour(style.underline, Open(U), style.strikeout, Open(S), style.bold, Bold, style.italic, Italic);
    assert Opening(PLAIN, style)
        == Four(style.underline, Open(U), style.strikeout, Open(S), style.bold, Bold, style.italic, Italic);
  }

  lemma SpellClosing(style: Style)
    ensures SpellAll(Closing(style, PLAIN)) == Behind(style)
  {
    SpelledTags();
    SpellFour(style.italic, Italic, style.bold, Bold, style.underline, Close(U), style.strikeout, Close(S));
    assert Closing(style, PLAIN)
        == Four(style.italic, Italic, style.bold, Bold, style.underline, Close(U), style.strikeout, Close(S));
  }

  lemma NothingCloses(style: Style)
    ensures Closing(PLAIN, style) == []
  {
    FourMarks(false, Italic, false, Bold, false, Close(U), false, Close(S));
  }

  /** The text of an item with its script tag. */
  function Tagged(script: Option<Tag>, text: string): string {
    match script
    case Some(Sup) => "<sup>" + text + "</sup>"
    case Some(Sub) => "<sub>" + text + "</sub>"
    case _ => text
  }

  /** The styles of an item that stands alone: strikeout wins over underline, and neither a
   *  decorated nor a raised or lowered item is bold or italic. */
  function Alone(flags: Flags, item: Item, script: Option<Tag>): Style {
    var decorated := flags.decorations && (item.strikeout || item.underline);
    var fonts := !decorated && script.None?;
    Style(flags.bold && item.bold && fonts, flags.italic && item.italic && fonts,
          flags.decorations && item.underline && !item.strikeout, flags.decorations && item.strikeout)
  }

  lemma TaggedBody(script: Option<Tag>, text: string)
    requires script.Some? ==> script.value.Sup? || script.value.Sub?
    ensures SpellAll(Body(script, text)) == Tagged(script, text)
  {
    SpellBody(script, text);
    assert "<" + "sup" + ">" == "<sup>" && "</" + "sup" + ">" == "</sup>";
    assert "<" + "sub" + ">" == "<sub>" && "</" + "sub" + ">" == "</sub>";
    if script.Some? {
      Inner("<", TagName(script.value), ">", text, "</");
    }
  }

  lemma Inner(a: string, name: string, b: string, text: string, c: string)
    ensures a + name + b + text + c + name + b == (a + name + b) + text + (c + name + b)
  {
  }

  lemma OneItemTokens(line: Line, flags: Flags, item: Item)
    requires line.items == [item] && item.text != "" && AnyFlag(flags)
    ensures var want := Wanted(line, flags, PLAIN, item);
            Formatted(line, flags)
            == (Opening(PLAIN, want) + Body(Script(line, flags, item), item.text)) + Closing(want, PLAIN)
  {
    var want := Wanted(line, flags, PLAIN, item);
    var none: seq<Item>, empty: seq<Token> := [], [];
    assert none + [item] == [item];
    EmitNext(line, flags, [], item);
    NothingCloses(want);
    assert empty + empty + Opening(PLAIN, want) == Opening(PLAIN, want);
  }

  /** A line of one item is written as the item's text inside its script tag, inside the
   *  marks of its style, from the outside in: decoration, bold, italic. Only the styles
   *  whose flags are on are written. */
  lemma OneItemText(line: Line, flags: Flags, item: Item)
    requires line.items == [item] && item.text != ""
    requires flags.bold || flags.italic || flags.decorations || flags.scripts
    ensures var script := Script(line, flags, item);
            SpellAll(Formatted(line, flags))
            == Before(Alone(flags, item, script)) + Tagged(script, item.text) + Behind(Alone(flags, item, script))
  {
    var script, want := Script(line, flags, item), Wanted(line, flags, PLAIN, item);
    assert want == Alone(flags, item, script);
    OneItemTokens(line, flags, item);
    SpellAppend(Opening(PLAIN, want), Body(script, item.text));
    SpellAppend(Opening(PLAIN, want) + Body(script, item.text), Closing(want, PLAIN));
    SpellOpening(want);
    TaggedBody(script, item.text);
    SpellClosing(want);
  }

  /** Without any flag the stored text is written, whatever the items are. */
  lemma NoFlagsText(line: Line)
    ensures SpellAll(Formatted(line, Flags(false, false, false, false))) == line.text
  {
    SpellOne(Raw(line.text));
  }

  /** A flag that is off turns its style off for every item. */
  lemma FlagsRestrict(line: Line, flags: Flags, n: nat)
    requires n < |line.items| && line.items[n].text != ""
    ensures var style := Emit(line, flags, line.items[..n + 1]).0;
            && (style.bold ==> flags.bold) && (style.italic ==> flags.italic)
            && (style.underline || style.strikeout ==> flags.decorations)
    ensures !flags.scripts ==> Script(line, flags, line.items[n]).None?
  {
    var items := line.items[..n + 1];
    assert items[..n] == line.items[..n];
    BoldComesFromLastPlain(line, flags, items);
    ItalicComesFromLastPlain(line, flags, items);
  }
}
