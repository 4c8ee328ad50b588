/** Where the regions of the Rust source masker begin and end: line comments, literals that
 *  are never closed, and the source text that is kept. */
module SourceMaskLaws {
  import opened SourceMask
  import opened Wrappers

  /** A line comment is one region, which ends before its line end. */
  lemma LineIsMasked(body: string, rest: string)
    requires '\n' !in body
    ensures Mask("//" + body + "\n" + rest) == Blank("//" + body) + "\n" + Mask(rest)
    ensures Mask("//" + body) == Blank("//" + body)
  {
    var w := "//" + body;
    var after := "\n" + rest;
    forall i | 0 <= i < |w| ensures !Starts(w[i..], "\n") && !Starts((w + after)[i..], "\n") {
      assert w[i] != '\n';
      FirstDecides(w[i..], "\n");
      FirstDecides((w + after)[i..], "\n");
    }
    LineOpen(w, "");
    LineOpen(w, after);
    assert w + "" == w && w + after == "//" + body + "\n" + rest;
    assert w[|w|..] == "" && !Starts("", "\n");
    assert (w + after)[|w|..] == after && after[..1] == "\n";
    FindIs(w + after, "\n", 0, |w|);
    RegionIsMasked(w, after);
    RegionIsMasked(w, "");
    assert Mask("") == "" && Blank(w) + "" == Blank(w);
    BlankOpensNothing(after);
    assert after[1..] == rest;
    assert Mask(after) == "\n" + Mask(rest);
  }

  lemma LineOpen(w: string, rest: string)
    requires |w| >= 2 && w[0] == '/' && w[1] == '/'
    ensures Starts(w + rest, "//")
  {
    assert (w + rest)[..2] == "//";
  }

  /** As long as nothing opens, the text is kept as it is. */
  lemma {:induction false} KeptUntilFirst(t: string, n: nat)
    requires n <= |t| && forall i :: 0 <= i < n ==> Region(t[i..]) == 0
    ensures Mask(t) == t[..n] + Mask(t[n..])
    decreases n
  {
    assert t[0..] == t;
    if n > 0 {
      forall i | 0 <= i < n - 1 ensures Region(t[1..][i..]) == 0 {
        assert t[1..][i..] == t[i + 1..];
      }
      KeptUntilFirst(t[1..], n - 1);
      OneAndMore(t, n, Mask(t[n..]));
    }
  }

  lemma OneAndMore(t: string, n: nat, masked: string)
    requires 0 < n <= |t|
    ensures t[1..][n - 1..] == t[n..] && [t[0]] + (t[1..][..n - 1] + masked) == t[..n] + masked
  {
    assert t[..n] == [t[0]] + t[1..][..n - 1];
  }

  /** A raw string opening: the prefix, its hashes and a quote. */
  function RawOpening(byte: bool, h: nat): string {
    (if byte then "br" else "r") + seq(h, _ => '#') + "\""
  }

  ghost predicate BeginsWith(t: string, w: string) {
    w <= t
  }

  /** A region opens at the start of a text exactly where one of the six constructs begins:
   *  a line or block comment, a raw string, a string, or a character literal. Everything
   *  else, lifetimes and plain identifiers among them, is kept. */
  lemma OpensIff(t: string)
    requires t != ""
    ensures Region(t) > 0 <==>
              || BeginsWith(t, "//") || BeginsWith(t, "/*") || BeginsWith(t, "\"")
              || (exists byte: bool, h: nat :: h <= 255 && BeginsWith(t, RawOpening(byte, h)))
              || (exists p: Piece :: CharPiece(p) && BeginsWith(t, "'" + Spell([p]) + "'"))
  {
    SlashesOpen(t);
    QuoteOpens(t);
    if RawHead(t).Some? { RawHeadBegins(t); }
    forall byte: bool, h: nat | h <= 255 && BeginsWith(t, RawOpening(byte, h)) ensures RawHead(t).Some? {
      var head, rest := if byte then "br" else "r", t[|RawOpening(byte, h)|..];
      assert t == head + seq(h, _ => '#') + "\"" + rest;
      RawOpens(head, h, rest);
    }
    if CharLen(t) > 0 { CharBegins(t); }
    forall p: Piece | CharPiece(p) && BeginsWith(t, "'" + Spell([p]) + "'") ensures Region(t) > 0 {
      CharOpens(t, p);
    }
  }

  /** What may stand between the quotes of a character literal. */
  predicate CharPiece(p: Piece) {
    p.c != '\n' && (p.Plain? ==> p.c != '\'' && p.c != '\\')
  }

  lemma SlashesOpen(t: string)
    requires t != ""
    ensures BeginsWith(t, "//") <==> Starts(t, "//")
    ensures BeginsWith(t, "/*") <==> Starts(t, "/*")
    ensures Starts(t, "//") || Starts(t, "/*") ==> Region(t) >= 2
  {
    if Starts(t, "//") { LineOpens(t); }
  }

  lemma QuoteOpens(t: string)
    requires t != ""
    ensures BeginsWith(t, "\"") <==> t[0] == '\"'
    ensures t[0] == '\"' ==> Region(t) > 0
  {
    FirstDecides(t, "//");
    FirstDecides(t, "/*");
    FirstDecides(t, "br");
    FirstDecides(t, "r");
  }

  lemma RawHeadBegins(t: string)
    requires RawHead(t).Some?
    ensures exists byte: bool, h: nat :: h <= 255 && BeginsWith(t, RawOpening(byte, h))
  {
    var h, p := RawHead(t).value, Prefix(t);
    var w := RawOpening(p == 2, h);
    assert |w| == p + h + 1;
    assert t[..p] == if p == 2 then "br" else "r";
    assert forall i :: 0 <= i < h ==> t[p + i] == t[p..][i] == '#';
    assert t[..|w|] == w;
    assert BeginsWith(t, RawOpening(p == 2, h));
  }

  lemma CharBegins(t: string)
    requires CharLen(t) > 0
    ensures exists p: Piece :: CharPiece(p) && BeginsWith(t, "'" + Spell([p]) + "'")
  {
    var p := if CharLen(t) == 4 then Escape(t[2]) else Plain(t[1]);
    SpellOne(p);
    assert t[..CharLen(t)] == "'" + Spell([p]) + "'";
    assert CharPiece(p) && BeginsWith(t, "'" + Spell([p]) + "'");
  }

  lemma SpellOne(p: Piece)
    ensures Spell([p]) == if p.Plain? then [p.c] else ['\\', p.c]
  {
    assert [p][1..] == [] && Spell([]) == "";
  }

  lemma CharOpens(t: string, p: Piece)
    requires CharPiece(p) && BeginsWith(t, "'" + Spell([p]) + "'")
    ensures t != "" && Region(t) > 0
  {
    SpellOne(p);
    var w := "'" + Spell([p]) + "'";
    assert t[..|w|] == w;
    assert forall i :: 0 <= i < |w| ==> t[i] == w[i];
    CharOpensNothingElse(t);
  }

  /** A string that is never closed takes the rest of the text, with or without a last
   *  backslash. */
  lemma UnclosedString(ps: seq<Piece>, last: string)
    requires forall i :: 0 <= i < |ps| ==> PieceOk(ps[i])
    requires last == "" || last == "\\"
    ensures Mask("\"" + (Spell(ps) + last)) == Blank("\"" + (Spell(ps) + last))
  {
    StringNeverEnds("\"", ps, last);
    UnclosedQuote("\"" + (Spell(ps) + last));
  }

  lemma UnclosedQuote(w: string)
    requires w != "" && w[0] == '\"' && StringLen(w, 1) >= |w|
    ensures Mask(w) == Blank(w)
  {
    QuoteRegion(w);
    WholeRegion(w);
  }

  lemma QuoteRegion(t: string)
    requires t != "" && t[0] == '\"'
    ensures Region(t) == StringLen(t, 1)
  {
    FirstDecides(t, "//");
    FirstDecides(t, "/*");
    FirstDecides(t, "br");
    FirstDecides(t, "r");
  }

  lemma WholeRegion(t: string)
    requires t != "" && Region(t) >= |t|
    ensures Mask(t) == Blank(t)
  {
    assert t[..|t|] == t && t[|t|..] == "" && Blank(t) + "" == Blank(t);
  }

  lemma {:induction false} StringNeverEnds(before: string, ps: seq<Piece>, last: string)
    requires forall i :: 0 <= i < |ps| ==> PieceOk(ps[i])
    requires last == "" || last == "\\"
    ensures var t := before + (Spell(ps) + last); StringLen(t, |before|) >= |t|
    decreases |ps|
  {
    var t := before + (Spell(ps) + last);
    if ps == [] {
      assert last != "" ==> t[|before|] == '\\';
    } else {
      var head := if ps[0].Plain? then [ps[0].c] else ['\\', ps[0].c];
      assert t[|before|] == head[0];
      assert t == (before + head) + (Spell(ps[1..]) + last);
      StringNeverEnds(before + head, ps[1..], last);
    }
  }

  /** So does a raw string in which its closing marker never begins. */
  lemma UnclosedRaw(byte: bool, h: nat, body: string)
    requires h <= 255 && forall i :: 0 <= i <= |body| ==> !Starts(body[i..], Marker(h))
    ensures Mask(RawOpening(byte, h) + body) == Blank(RawOpening(byte, h) + body)
  {
    RawOpens(if byte then "br" else "r", h, body);
    NotAfter(RawOpening(byte, h), body, Marker(h));
    RawRegion(RawOpening(byte, h) + body, h);
    WholeRegion(RawOpening(byte, h) + body);
  }

  lemma NotAfter(before: string, body: string, pattern: string)
    requires forall i :: 0 <= i <= |body| ==> !Starts(body[i..], pattern)
    ensures forall i :: |before| <= i <= |before + body| ==> !Starts((before + body)[i..], pattern)
  {
    forall i | |before| <= i <= |before + body| ensures !Starts((before + body)[i..], pattern) {
      assert (before + body)[i..] == body[i - |before|..];
    }
  }

  lemma RawRegion(t: string, h: nat)
    requires t != "" && !Starts(t, "//") && !Starts(t, "/*") && RawHead(t) == Some(h)
    requires forall i :: Prefix(t) + h + 1 <= i <= |t| ==> !Starts(t[i..], Marker(h))
    ensures Region(t) == |t|
  {
  }
}
