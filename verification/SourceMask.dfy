/** The Rust source masker of scripts/check_wasm_compat.py: what `code_only` blanks. */
module SourceMask {
  import opened Wrappers

  // ----- what opens at the start of a text, and how long it is -----

  predicate Starts(t: string, pattern: string) {
    |pattern| <= |t| && t[..|pattern|] == pattern
  }

  /** The first place from `from` on where the pattern occurs. */
  function Find(t: string, pattern: string, from: nat): (r: Option<nat>)
    requires from <= |t|
    ensures r.Some? ==> from <= r.value <= |t| && Starts(t[r.value..], pattern)
    ensures r.Some? ==> forall i :: from <= i < r.value ==> !Starts(t[i..], pattern)
    ensures r.None? ==> forall i :: from <= i <= |t| ==> !Starts(t[i..], pattern)
    decreases |t| - from
  {
    if Starts(t[from..], pattern) then Some(from)
    else if from == |t| then None
    else Find(t, pattern, from + 1)
  }

  /** A comment runs up to its line end, or to the end of the text. */
  function LineLen(t: string): (n: nat)
    ensures n <= |t|
  {
    match Find(t, "\n", 0)
    case Some(n) => n
    case None => |t|
  }

  /** The end of a block comment read up to `end` at nesting depth `depth`. */
  function BlockLen(t: string, end: nat, depth: nat): (n: nat)
    requires end <= |t|
    ensures end <= n <= |t|
    decreases |t| - end
  {
    if end == |t| || depth == 0 then end
    else if Starts(t[end..], "/*") then BlockLen(t, end + 2, depth + 1)
    else if Starts(t[end..], "*/") then BlockLen(t, end + 2, depth - 1)
    else BlockLen(t, end + 1, depth)
  }

  /** How many `#` follow. */
  function Hashes(t: string): (n: nat)
    ensures n <= |t| && (forall i :: 0 <= i < n ==> t[i] == '#') && (n < |t| ==> t[n] != '#')
  {
    if t == "" || t[0] != '#' then 0 else 1 + Hashes(t[1..])
  }

  function Prefix(t: string): nat {
    if Starts(t, "br") then 2 else if Starts(t, "r") then 1 else 0
  }

  /** The hashes of a raw string that opens here: at most 255, and then a quote. */
  function RawHead(t: string): (r: Option<nat>)
    ensures r.Some? ==> Prefix(t) > 0 && Prefix(t) + r.value < |t| && t[Prefix(t) + r.value] == '\"'
  {
    var p := Prefix(t);
    if p == 0 then None
    else
      var h := Hashes(t[p..]);
      if h <= 255 && p + h < |t| && t[p + h] == '\"' then Some(h) else None
  }

  function Marker(h: nat): (m: string)
    ensures |m| == h + 1
  {
    "\"" + seq(h, _ => '#')
  }

  function RawLen(t: string, h: nat): (n: nat)
    requires RawHead(t) == Some(h)
    ensures 1 < n <= |t|
  {
    match Find(t, Marker(h), Prefix(t) + h + 1)
    case Some(n) => n + h + 1
    case None => |t|
  }

  /** A string read up to `end`: an escape takes two characters, which may lie beyond the
   *  end of the text. */
  function StringLen(t: string, end: nat): (n: nat)
    ensures n >= end
    decreases |t| - end
  {
    if end >= |t| then end
    else if t[end] == '\\' then StringLen(t, end + 2)
    else if t[end] == '\"' then end + 1
    else StringLen(t, end + 1)
  }

  /** A character literal: an escape, or one character other than a quote, a backslash or
   *  a line end. */
  function CharLen(t: string): (n: nat)
    ensures n <= |t|
  {
    if |t| >= 4 && t[0] == '\'' && t[1] == '\\' && t[2] != '\n' && t[3] == '\'' then 4
    else if |t| >= 3 && t[0] == '\'' && t[1] !in "'\\\n" && t[2] == '\'' then 3
    else 0
  }

  /** The length of the comment or literal that opens at the start of `t`; 0 if none does. */
  function Region(t: string): nat
    requires t != ""
  {
    if Starts(t, "//") then LineLen(t)
    else if Starts(t, "/*") then BlockLen(t, 2, 1)
    else if RawHead(t).Some? then RawLen(t, RawHead(t).value)
    else if t[0] == '\"' then StringLen(t, 1)
    else CharLen(t)
  }

  // ----- masking -----

  function Blank(t: string): (r: string)
    ensures |r| == |t| && forall i :: 0 <= i < |t| ==> r[i] == if t[i] == '\n' then '\n' else ' '
  {
    seq(|t|, i requires 0 <= i < |t| => if t[i] == '\n' then '\n' else ' ')
  }

  function Upto(n: nat, limit: nat): nat {
    if n < limit then n else limit
  }

  function Mask(t: string): (r: string)
    decreases |t|
  {
    if t == "" then ""
    else
      var n := Upto(Region(t), |t|);
      if n > 0 then Blank(t[..n]) + Mask(t[n..]) else [t[0]] + Mask(t[1..])
  }

  // ----- what masking keeps -----

  /** Every character of `t` is kept in `r`, or blanked if it is not a line end. */
  predicate Keeps(r: string, t: string) {
    && |r| == |t|
    && forall i :: 0 <= i < |t| ==> (r[i] == t[i] || r[i] == ' ') && (r[i] == '\n' <==> t[i] == '\n')
  }

  lemma KeepsWhole(r: string, t: string, head: string, m: nat, rest: string)
    requires m <= |t| && r == head + rest && Keeps(head, t[..m]) && Keeps(rest, t[m..])
    ensures Keeps(r, t)
  {
    assert t == t[..m] + t[m..];
  }

  lemma MaskUnfolds(t: string) returns (head: string, m: nat)
    requires t != ""
    ensures 0 < m <= |t| && Mask(t) == head + Mask(t[m..]) && Keeps(head, t[..m])
  {
    var n := Upto(Region(t), |t|);
    if n > 0 {
      head, m := Blank(t[..n]), n;
    } else {
      head, m := [t[0]], 1;
    }
  }

  /** Same length, same line ends, and every other character is kept or blanked. */
  lemma {:induction false} MaskKeepsPlaces(t: string)
    ensures Keeps(Mask(t), t)
    decreases |t|
  {
    if t != "" {
      var head, m := MaskUnfolds(t);
      MaskKeepsPlaces(t[m..]);
      KeepsWhole(Mask(t), t, head, m, Mask(t[m..]));
    }
  }

  // ----- nothing is left to mask -----

  ghost predicate Clean(t: string) {
    forall i :: 0 <= i < |t| ==> Region(t[i..]) == 0
  }

  /** A clean text has no quote. */
  lemma CleanHasNoQuote(t: string)
    requires Clean(t)
    ensures '\"' !in t
  {
    forall i | 0 <= i < |t| ensures t[i] != '\"' {
      assert t[i..][0] == t[i];
    }
  }

  lemma LineOpens(t: string)
    requires Starts(t, "//")
    ensures Region(t) >= 2
  {
    assert t[0] == t[..2][0] == '/' && t[1] == t[..2][1] == '/';
    if Find(t, "\n", 0).Some? {
      var n := Find(t, "\n", 0).value;
      assert t[n..][..1][0] == t[n];
    }
  }

  /** Every region is two characters or more, unless it is a lone quote at the very end. */
  lemma RegionSpans(t: string)
    requires t != "" && Region(t) > 0
    ensures Upto(Region(t), |t|) >= 2 || |t| == 1
  {
    if Starts(t, "//") { LineOpens(t); }
  }

  /** What the first characters of a masked text say about the text itself. */
  lemma FirstKept(t: string)
    requires t != ""
    ensures |Mask(t)| == |t|
    ensures Mask(t)[0] !in " \n" ==> Region(t) == 0 && Mask(t) == [t[0]] + Mask(t[1..])
    ensures Region(t) > 0 && |t| > 1 ==> Mask(t)[0] in " \n" && Mask(t)[1] in " \n"
  {
    MaskKeepsPlaces(t);
    if Region(t) > 0 { RegionSpans(t); }
  }

  /** A character that is kept does not open anything in the masked text either. */
  lemma KeptStaysClosed(t: string)
    requires t != "" && Region(t) == 0 && Clean(Mask(t[1..]))
    ensures Region(Mask(t)) == 0
  {
    var rest := Mask(t[1..]);
    var out := [t[0]] + rest;
    MaskKeepsPlaces(t[1..]);
    CleanHasNoQuote(rest);
    NoSlashes(t, rest);
    NoRaw(t[0], rest);
    NoCharLiteral(t, rest);
  }

  lemma NoSlashes(t: string, rest: string)
    requires t != "" && Region(t) == 0 && rest == Mask(t[1..])
    ensures !Starts([t[0]] + rest, "//") && !Starts([t[0]] + rest, "/*")
  {
    var out := [t[0]] + rest;
    if |t| > 1 && t[0] == '/' {
      FirstKept(t[1..]);
      if rest[0] == '/' || rest[0] == '*' {
        assert t[..2] == [t[0], t[1]];
        assert rest[0] == t[1];
        if rest[0] == '/' { LineOpens(t); }
        assert false;
      }
      assert out[..2][1] == rest[0];
    } else {
      if |out| >= 2 { assert out[..2][0] == t[0]; }
      MaskKeepsPlaces(t[1..]);
    }
  }

  lemma NoRaw(c: char, rest: string)
    requires '\"' !in rest
    ensures RawHead([c] + rest).None?
  {
    var out := [c] + rest;
    assert forall k :: 0 < k < |out| ==> out[k] == rest[k - 1] && rest[k - 1] in rest;
  }

  lemma NoCharLiteral(t: string, rest: string)
    requires t != "" && Region(t) == 0 && rest == Mask(t[1..])
    ensures CharLen([t[0]] + rest) == 0 && t[0] != '\"'
  {
    MaskKeepsPlaces(t[1..]);
    if t[0] == '\'' {
      CharOpensNothingElse(t);
      if |rest| >= 2 && rest[1] == '\'' { ShortLiteral(t, rest); }
      if |rest| >= 3 && rest[0] == '\\' && rest[2] == '\'' { EscapedLiteral(t, rest); }
    }
  }

  lemma FirstDecides(t: string, pattern: string)
    requires t != "" && pattern != ""
    ensures Starts(t, pattern) ==> t[0] == pattern[0]
  {
    if Starts(t, pattern) {
      assert t[..|pattern|][0] == t[0];
    }
  }

  lemma CharOpensNothingElse(t: string)
    requires t != "" && t[0] == '\''
    ensures Region(t) == CharLen(t)
  {
    FirstDecides(t, "//");
    FirstDecides(t, "/*");
    FirstDecides(t, "br");
    FirstDecides(t, "r");
  }

  lemma ShortLiteral(t: string, rest: string)
    requires t != "" && t[0] == '\'' && CharLen(t) == 0 && rest == Mask(t[1..])
    requires |rest| == |t| - 1 && |rest| >= 2 && rest[1] == '\''
    ensures rest[0] in "'\\\n"
  {
    FirstKept(t[1..]);
    FirstKept(t[1..][1..]);
    assert t[1..][1..][0] == t[2] && t[1..][0] == t[1];
  }

  lemma EscapedLiteral(t: string, rest: string)
    requires t != "" && t[0] == '\'' && CharLen(t) == 0 && rest == Mask(t[1..])
    requires |rest| == |t| - 1 && |rest| >= 3 && rest[0] == '\\' && rest[2] == '\''
    ensures rest[1] == '\n'
  {
    var a := t[1..];
    var b := a[1..];
    var c := b[1..];
    FirstKept(a);
    FirstKept(b);
    FirstKept(c);
    MaskKeepsPlaces(b);
    assert a[0] == t[1] && b[0] == t[2] && c[0] == t[3];
  }

  /** Nothing opens anywhere in a masked text: no quote, no comment opener and no
   *  character literal is left. */
  lemma {:induction false} MaskedIsClean(t: string)
    ensures Clean(Mask(t))
    decreases |t|
  {
    if t != "" {
      var n := Upto(Region(t), |t|);
      var out := Mask(t);
      MaskKeepsPlaces(t);
      if n > 0 {
        var rest := Mask(t[n..]);
        MaskedIsClean(t[n..]);
        MaskKeepsPlaces(t[n..]);
        forall i | 0 <= i < |out| ensures Region(out[i..]) == 0 {
          if i < n {
            BlankOpensNothing(out[i..]);
          } else {
            assert out[i..] == rest[i - n..];
          }
        }
      } else {
        var rest := Mask(t[1..]);
        MaskedIsClean(t[1..]);
        KeptStaysClosed(t);
        forall i | 0 <= i < |out| ensures Region(out[i..]) == 0 {
          if i == 0 { assert out[0..] == out; } else { assert out[i..] == rest[i - 1..]; }
        }
      }
    }
  }

  lemma BlankOpensNothing(t: string)
    requires t != "" && t[0] in " \n"
    ensures Region(t) == 0
  {
    FirstDecides(t, "//");
    FirstDecides(t, "/*");
    FirstDecides(t, "br");
    FirstDecides(t, "r");
  }

  lemma {:induction false} CleanIsFixed(t: string)
    requires Clean(t)
    ensures Mask(t) == t
    decreases |t|
  {
    if t != "" {
      assert t[0..] == t;
      var rest := t[1..];
      forall i | 0 <= i < |rest| ensures Region(rest[i..]) == 0 {
        assert rest[i..] == t[i + 1..];
      }
      CleanIsFixed(rest);
      assert t == [t[0]] + rest;
    }
  }

  /** A second pass changes nothing. */
  lemma MaskIsIdempotent(t: string)
    ensures Mask(Mask(t)) == Mask(t)
  {
    MaskedIsClean(t);
    CleanIsFixed(Mask(t));
  }

  // ----- what one region covers -----

  /** A piece of a string literal: a plain character or an escape. */
  datatype Piece = Plain(c: char) | Escape(c: char)

  predicate PieceOk(p: Piece) {
    p.Plain? ==> p.c != '\"' && p.c != '\\'
  }

  function Spell(ps: seq<Piece>): string {
    if ps == [] then "" else (if ps[0].Plain? then [ps[0].c] else ['\\', ps[0].c]) + Spell(ps[1..])
  }

  lemma {:induction false} StringEnds(before: string, ps: seq<Piece>, rest: string)
    requires forall i :: 0 <= i < |ps| ==> PieceOk(ps[i])
    ensures StringLen(before + (Spell(ps) + "\"" + rest), |before|) == |before| + |Spell(ps)| + 1
    decreases |ps|
  {
    var t := before + (Spell(ps) + "\"" + rest);
    if ps == [] {
      assert t[|before|] == '\"';
    } else {
      var head := if ps[0].Plain? then [ps[0].c] else ['\\', ps[0].c];
      assert t[|before|] == head[0];
      assert t == (before + head) + (Spell(ps[1..]) + "\"" + rest);
      StringEnds(before + head, ps[1..], rest);
    }
  }

  /** A string literal is one region, whatever it contains. */
  lemma StringIsMasked(ps: seq<Piece>, rest: string)
    requires forall i :: 0 <= i < |ps| ==> PieceOk(ps[i])
    ensures var literal := "\"" + Spell(ps) + "\"";
            Mask(literal + rest) == Blank(literal) + Mask(rest)
  {
    var literal := "\"" + Spell(ps) + "\"";
    var t := literal + rest;
    assert t == "\"" + (Spell(ps) + "\"" + rest);
    StringEnds("\"", ps, rest);
    FirstDecides(t, "//");
    FirstDecides(t, "/*");
    FirstDecides(t, "br");
    FirstDecides(t, "r");
    RegionIsMasked(literal, rest);
  }

  /** A block comment: plain characters and comments inside it. */
  datatype Comment = Comment(body: seq<Part>)

  datatype Part = Text(c: char) | Nested(comment: Comment)

  function Write(c: Comment): string
    decreases c, 1
  {
    "/*" + WriteParts(c.body) + "*/"
  }

  function WriteParts(ps: seq<Part>): string
    decreases ps, 0
  {
    if ps == [] then "" else WritePart(ps[0]) + WriteParts(ps[1..])
  }

  function WritePart(p: Part): string
    decreases p, 2
  {
    match p
    case Text(c) => [c]
    case Nested(c) => Write(c)
  }

  /** The parts stand in `t` at place `k`, and at none of their own characters does a
   *  delimiter start. */
  ghost predicate Delimited(t: string, k: nat, ps: seq<Part>)
    decreases ps, 0
  {
    ps == [] || (DelimitedPart(t, k, ps[0]) && Delimited(t, k + |WritePart(ps[0])|, ps[1..]))
  }

  ghost predicate DelimitedPart(t: string, k: nat, p: Part)
    decreases p, 2
  {
    match p
    case Text(_) => Plainly(t, k)
    case Nested(c) => Delimited(t, k + 2, c.body)
  }

  predicate Plainly(t: string, k: nat) {
    k <= |t| && !Starts(t[k..], "/*") && !Starts(t[k..], "*/")
  }

  /** Written down, the comment reads as it is meant: its text may hold any characters,
   *  as long as no delimiter begins at one of them. */
  ghost predicate WellDelimited(c: Comment) {
    Delimited(Write(c), 2, c.body)
  }

  /** `w` stands in `t` at place `k`. */
  ghost predicate Has(t: string, k: nat, w: string) {
    k + |w| <= |t| && t[k..k + |w|] == w
  }

  lemma HasBoth(t: string, k: nat, a: string, b: string)
    requires Has(t, k, a + b)
    ensures Has(t, k, a) && Has(t, k + |a|, b)
  {
    var w := t[k..k + |a + b|];
    assert w[..|a|] == a && w[|a|..] == b;
    assert t[k..k + |a|] == w[..|a|] && t[k + |a|..k + |a| + |b|] == w[|a|..];
  }

  lemma HasStarts(t: string, k: nat, pattern: string)
    requires Has(t, k, pattern)
    ensures Starts(t[k..], pattern)
  {
    assert t[k..][..|pattern|] == t[k..k + |pattern|];
  }

  lemma NotBoth(t: string)
    requires Starts(t, "*/")
    ensures !Starts(t, "/*")
  {
    FirstDecides(t, "/*");
    FirstDecides(t, "*/");
  }

  lemma SameTwo(w: string, rest: string, k: nat, pattern: string)
    requires |pattern| == 2 && k + 2 <= |w|
    ensures Starts((w + rest)[k..], pattern) <==> Starts(w[k..], pattern)
  {
    assert (w + rest)[k..][..2] == w[k..][..2];
  }

  /** What follows a comment does not matter: two characters of it stand after its parts. */
  lemma {:induction false} DelimitedSame(w: string, rest: string, k: nat, ps: seq<Part>)
    requires k + |WriteParts(ps)| + 2 <= |w|
    ensures Delimited(w, k, ps) <==> Delimited(w + rest, k, ps)
    decreases ps, 0
  {
    if ps != [] {
      PartSame(w, rest, k, ps[0]);
      DelimitedSame(w, rest, k + |WritePart(ps[0])|, ps[1..]);
    }
  }

  lemma {:induction false} PartSame(w: string, rest: string, k: nat, p: Part)
    requires k + |WritePart(p)| + 2 <= |w|
    ensures DelimitedPart(w, k, p) <==> DelimitedPart(w + rest, k, p)
    decreases p, 2
  {
    match p
    case Text(_) =>
      SameTwo(w, rest, k, "/*");
      SameTwo(w, rest, k, "*/");
    case Nested(c) =>
      assert |WritePart(p)| == |WriteParts(c.body)| + 4;
      DelimitedSame(w, rest, k + 2, c.body);
  }

  /** Reading a comment's parts at any depth leads to their end at the same depth. */
  lemma {:induction false} PartsEnd(t: string, k: nat, ps: seq<Part>, depth: nat)
    requires depth > 0 && Delimited(t, k, ps) && Has(t, k, WriteParts(ps))
    ensures BlockLen(t, k, depth) == BlockLen(t, k + |WriteParts(ps)|, depth)
    decreases ps, 0
  {
    if ps != [] {
      var head, tail := WritePart(ps[0]), WriteParts(ps[1..]);
      HasBoth(t, k, head, tail);
      var m := k + |head|;
      assert m + |tail| == k + |WriteParts(ps)|;
      PartEnds(t, k, ps[0], depth);
      PartsEnd(t, m, ps[1..], depth);
    }
  }

  lemma {:induction false} PartEnds(t: string, k: nat, p: Part, depth: nat)
    requires depth > 0 && DelimitedPart(t, k, p) && Has(t, k, WritePart(p))
    ensures BlockLen(t, k, depth) == BlockLen(t, k + |WritePart(p)|, depth)
    decreases p, 2
  {
    match p
    case Text(c) =>
    case Nested(c) =>
      assert WritePart(p) == Write(c);
      HasBoth(t, k, "/*" + WriteParts(c.body), "*/");
      HasBoth(t, k, "/*", WriteParts(c.body));
      HasStarts(t, k, "/*");
      CommentEnds(t, k, c, depth);
  }

  lemma {:induction false} CommentEnds(t: string, k: nat, c: Comment, depth: nat)
    requires Delimited(t, k + 2, c.body) && Has(t, k, Write(c))
    ensures BlockLen(t, k + 2, depth + 1) == BlockLen(t, k + |Write(c)|, depth)
    decreases c, 1
  {
    var body := WriteParts(c.body);
    HasBoth(t, k, "/*" + body, "*/");
    HasBoth(t, k, "/*", body);
    PartsEnd(t, k + 2, c.body, depth + 1);
    HasStarts(t, k + 2 + |body|, "*/");
    NotBoth(t[k + 2 + |body|..]);
  }

  /** A block comment with any comments nested in it is one region: it ends at its own
   *  closing delimiter. */
  lemma CommentIsMasked(c: Comment, rest: string)
    requires WellDelimited(c)
    ensures Mask(Write(c) + rest) == Blank(Write(c)) + Mask(rest)
  {
    var w := Write(c);
    var t := w + rest;
    assert t[0..0 + |w|] == w;
    CommentOpens(t, w);
    DelimitedSame(w, rest, 2, c.body);
    CommentRegion(t, c);
    RegionIsMasked(w, rest);
  }

  lemma CommentRegion(t: string, c: Comment)
    requires Delimited(t, 2, c.body) && Has(t, 0, Write(c)) && Starts(t, "/*") && !Starts(t, "//")
    ensures Region(t) == |Write(c)|
  {
    CommentEnds(t, 0, c, 0);
  }

  lemma CommentFound(t: string, k: nat, c: Comment, n: nat)
    requires n == k + 2 + |WriteParts(c.body)| && n + 2 <= |t|
    requires Starts(t[k..], "/*") && Has(t, k + 2, WriteParts(c.body)) && Starts(t[n..], "*/")
    ensures |Write(c)| == n + 2 - k && Has(t, k, Write(c))
  {
    assert t[k..n + 2] == t[k..k + 2] + t[k + 2..n] + t[n..n + 2];
    assert t[k..][..2] == t[k..k + 2] && t[n..][..2] == t[n..n + 2];
  }

  lemma PartsJoin(t: string, k: nat, p: Part, tail: seq<Part>)
    requires Has(t, k, WritePart(p)) && DelimitedPart(t, k, p)
    requires Has(t, k + |WritePart(p)|, WriteParts(tail)) && Delimited(t, k + |WritePart(p)|, tail)
    ensures Has(t, k, WriteParts([p] + tail)) && Delimited(t, k, [p] + tail)
    ensures |WriteParts([p] + tail)| == |WritePart(p)| + |WriteParts(tail)|
  {
    var ps, m := [p] + tail, k + |WritePart(p)|;
    var end := m + |WriteParts(tail)|;
    assert ps[0] == p && ps[1..] == tail;
    assert t[k..end] == t[k..m] + t[m..end];
  }

  /** From `k` to `m` there are well-delimited parts, and then the closing delimiter that
   *  ends the scan at this depth. */
  ghost predicate Found(t: string, k: nat, depth: nat, ps: seq<Part>, m: nat)
    requires k <= |t| && depth > 0
  {
    && m == k + |WriteParts(ps)| && m + 2 <= |t| && Has(t, k, WriteParts(ps)) && Delimited(t, k, ps)
    && Starts(t[m..], "*/") && BlockLen(t, k, depth) == BlockLen(t, m + 2, depth - 1)
  }

  lemma FoundEnd(t: string, k: nat, depth: nat)
    requires k <= |t| && depth > 0 && Starts(t[k..], "*/")
    ensures Found(t, k, depth, [], k)
  {
    NotBoth(t[k..]);
  }

  lemma FoundText(t: string, k: nat, depth: nat, tail: seq<Part>, m: nat)
    requires k < |t| && depth > 0 && Plainly(t, k) && Found(t, k + 1, depth, tail, m)
    ensures Found(t, k, depth, [Text(t[k])] + tail, m)
  {
    PartsJoin(t, k, Text(t[k]), tail);
  }

  lemma FoundNested(t: string, k: nat, depth: nat, inner: seq<Part>, n: nat, tail: seq<Part>, m: nat)
    requires k + 2 <= |t| && depth > 0 && Starts(t[k..], "/*") && Found(t, k + 2, depth + 1, inner, n)
    requires Found(t, n + 2, depth, tail, m)
    ensures Found(t, k, depth, [Nested(Comment(inner))] + tail, m)
  {
    CommentFound(t, k, Comment(inner), n);
    PartsJoin(t, k, Nested(Comment(inner)), tail);
  }

  /** When the scan inside a comment comes to a close before the end of the text, it has
   *  read well-delimited parts and their closing delimiter. */
  lemma {:induction false} PartsFound(t: string, k: nat, depth: nat) returns (ps: seq<Part>, m: nat)
    requires k <= |t| && depth > 0 && BlockLen(t, k, depth) < |t|
    ensures Found(t, k, depth, ps, m)
    decreases |t| - k
  {
    if Starts(t[k..], "/*") {
      var inner, n := PartsFound(t, k + 2, depth + 1);
      var tail;
      tail, m := PartsFound(t, n + 2, depth);
      ps := [Nested(Comment(inner))] + tail;
      FoundNested(t, k, depth, inner, n, tail, m);
    } else if Starts(t[k..], "*/") {
      ps, m := [], k;
      FoundEnd(t, k, depth);
    } else {
      var tail;
      tail, m := PartsFound(t, k + 1, depth);
      ps := [Text(t[k])] + tail;
      FoundText(t, k, depth, tail, m);
    }
  }

  /** What a comment opener opens is a comment that is nested properly to any depth, or else it is
   *  never closed and takes the whole text. */
  lemma CommentRegionIff(t: string)
    requires Starts(t, "/*")
    ensures Region(t) < |t|
       <==> exists c: Comment :: WellDelimited(c) && |Write(c)| < |t| && Has(t, 0, Write(c))
    ensures forall c: Comment :: WellDelimited(c) && Has(t, 0, Write(c)) ==> Region(t) == |Write(c)|
  {
    assert t[0..] == t;
    assert Has(t, 0, t[..2]);
    CommentOpens(t, t[..2]);
    forall c: Comment | WellDelimited(c) && Has(t, 0, Write(c)) ensures Region(t) == |Write(c)| {
      assert t == Write(c) + t[|Write(c)|..];
      DelimitedSame(Write(c), t[|Write(c)|..], 2, c.body);
      CommentRegion(t, c);
    }
    if Region(t) < |t| {
      var body, n := PartsFound(t, 2, 1);
      var c := Comment(body);
      CommentFound(t, 0, c, n);
      assert t == Write(c) + t[|Write(c)|..];
      DelimitedSame(Write(c), t[|Write(c)|..], 2, body);
    }
  }

  /** A raw string: any text in which its own closing marker does not begin. */
  lemma RawIsMasked(byte: bool, h: nat, body: string, rest: string)
    requires h <= 255
    requires forall i :: 0 <= i < |body| ==> !Starts((body + Marker(h))[i..], Marker(h))
    ensures var literal := (if byte then "br" else "r") + seq(h, _ => '#') + "\"" + body + Marker(h);
            Mask(literal + rest) == Blank(literal) + Mask(rest)
  {
    var head := if byte then "br" else "r";
    var opening := head + seq(h, _ => '#') + "\"";
    var literal := opening + body + Marker(h);
    var t := literal + rest;
    RawOpens(head, h, body + Marker(h) + rest);
    assert t == opening + (body + Marker(h) + rest);
    assert (body + Marker(h))[|body|..] == Marker(h);
    FindInside(opening, body + Marker(h), rest, Marker(h), |body|);
    RegionIsMasked(literal, rest);
  }

  lemma RawOpens(head: string, h: nat, rest: string)
    requires head == "r" || head == "br"
    requires h <= 255
    ensures var t := head + seq(h, _ => '#') + "\"" + rest;
            Prefix(t) == |head| && RawHead(t) == Some(h) && !Starts(t, "//") && !Starts(t, "/*")
  {
    var hashes := seq(h, _ => '#');
    var t := head + hashes + "\"" + rest;
    FirstDecides(t, "//");
    FirstDecides(t, "/*");
    assert t[..|head|] == head;
    FirstDecides(t, "br");
    assert t[|head|..] == hashes + ("\"" + rest);
    HashesCount(h, "\"" + rest);
  }

  lemma {:induction false} HashesCount(h: nat, rest: string)
    requires rest == "" || rest[0] != '#'
    ensures Hashes(seq(h, _ => '#') + rest) == h
  {
    var t := seq(h, _ => '#') + rest;
    if h == 0 {
      assert t == rest;
    } else {
      assert t[1..] == seq(h - 1, _ => '#') + rest;
      HashesCount(h - 1, rest);
    }
  }

  lemma FindIs(t: string, pattern: string, from: nat, n: nat)
    requires from <= n <= |t| && Starts(t[n..], pattern)
    requires forall i :: from <= i < n ==> !Starts(t[i..], pattern)
    ensures Find(t, pattern, from) == Some(n)
  {
  }

  lemma StartsInside(before: string, text: string, rest: string, pattern: string, j: nat)
    requires j + |pattern| <= |text|
    ensures Starts((before + (text + rest))[|before| + j..], pattern) <==> Starts(text[j..], pattern)
  {
    assert (before + (text + rest))[|before| + j..] == (text + rest)[j..];
    assert (text + rest)[j..] == text[j..] + rest;
    assert (text[j..] + rest)[..|pattern|] == text[j..][..|pattern|];
  }

  lemma FindInside(before: string, text: string, rest: string, pattern: string, n: nat)
    requires n + |pattern| <= |text| && Starts(text[n..], pattern)
    requires forall i :: 0 <= i < n ==> !Starts(text[i..], pattern)
    ensures Find(before + (text + rest), pattern, |before|) == Some(|before| + n)
  {
    var t := before + (text + rest);
    StartsInside(before, text, rest, pattern, n);
    forall i | |before| <= i < |before| + n ensures !Starts(t[i..], pattern) {
      var j := i - |before|;
      StartsInside(before, text, rest, pattern, j);
      assert t[|before| + j..] == t[i..];
    }
    FindIs(t, pattern, |before|, |before| + n);
  }

  /** A character literal, plain or escaped, is one region. */
  lemma CharIsMasked(p: Piece, rest: string)
    requires p.c != '\n' && (p.Plain? ==> p.c != '\'' && p.c != '\\')
    ensures var literal := "'" + Spell([p]) + "'";
            Mask(literal + rest) == Blank(literal) + Mask(rest)
  {
    var literal := "'" + Spell([p]) + "'";
    var t := literal + rest;
    assert Spell([p]) == if p.Plain? then [p.c] else ['\\', p.c];
    CharOpensNothingElse(t);
    assert t[1] == Spell([p])[0];
    RegionIsMasked(literal, rest);
  }

  lemma RegionIsMasked(w: string, rest: string)
    requires w != "" && Region(w + rest) == |w|
    ensures Mask(w + rest) == Blank(w) + Mask(rest)
  {
    var t := w + rest;
    assert t[..|w|] == w && t[|w|..] == rest;
  }

  lemma CommentOpens(t: string, w: string)
    requires Has(t, 0, w) && |w| >= 2 && w[..2] == "/*"
    ensures Starts(t, "/*") && !Starts(t, "//")
  {
    assert t[..2] == t[0..|w|][..2];
    assert t[..2][1] == '*';
  }

  // ----- the scanner -----

  lemma {:induction false} FindInSuffix(s: string, i: nat, pattern: string, from: nat)
    requires i + from <= |s|
    ensures Find(s, pattern, i + from)
         == match Find(s[i..], pattern, from) case None => None case Some(n) => Some(i + n)
    decreases |s| - from
  {
    assert s[i..][from..] == s[i + from..];
    if !Starts(s[i + from..], pattern) && i + from < |s| {
      FindInSuffix(s, i, pattern, from + 1);
    }
  }

  method BlockEnd(source: string, index: nat) returns (end: nat)
    requires index + 2 <= |source|
    ensures end == index + BlockLen(source[index..], 2, 1)
  {
    ghost var t := source[index..];
    var depth := 1;
    end := index + 2;
    while end < |source| && depth > 0
      invariant index + 2 <= end <= |source|
      invariant depth >= 0 && BlockLen(t, end - index, depth) == BlockLen(t, 2, 1)
    {
      assert t[end - index..] == source[end..];
      if Starts(source[end..], "/*") {
        depth := depth + 1;
        end := end + 2;
      } else if Starts(source[end..], "*/") {
        depth := depth - 1;
        end := end + 2;
      } else {
        end := end + 1;
      }
    }
  }

  method StringEnd(source: string, index: nat) returns (end: nat)
    requires index < |source|
    ensures end == index + StringLen(source[index..], 1)
  {
    ghost var t := source[index..];
    end := index + 1;
    while end < |source|
      invariant index < end
      invariant StringLen(t, end - index) == StringLen(t, 1)
    {
      assert t[end - index] == source[end];
      if source[end] == '\\' {
        end := end + 2;
      } else if source[end] == '\"' {
        return end + 1;
      } else {
        end := end + 1;
      }
    }
  }

  method RegionEnd(source: string, index: nat) returns (end: nat)
    requires index < |source|
    ensures end == index + Region(source[index..])
  {
    ghost var t := source[index..];
    end := index;
    if Starts(source[index..], "//") {
      FindInSuffix(source, index, "\n", 0);
      var found := Find(source, "\n", index);
      end := if found.Some? then found.value else |source|;
    } else if Starts(source[index..], "/*") {
      end := BlockEnd(source, index);
    } else if RawHead(source[index..]).Some? {
      var h := RawHead(source[index..]).value;
      var matched := Prefix(source[index..]) + h + 1;
      FindInSuffix(source, index, Marker(h), matched);
      var found := Find(source, Marker(h), index + matched);
      end := if found.None? then |source| else found.value + |Marker(h)|;
    } else if source[index] == '\"' {
      end := StringEnd(source, index);
    } else {
      end := index + CharLen(source[index..]);
    }
  }

  method BlankOut(result: array<char>, index: nat, end: nat)
    requires index <= end <= result.Length
    modifies result
    ensures result[..] == old(result[..index]) + Blank(old(result[index..end])) + old(result[end..])
  {
    for position := index to end
      invariant forall k :: 0 <= k < result.Length && !(index <= k < position) ==> result[k] == old(result[k])
      invariant forall k :: index <= k < position ==> result[k] == if old(result[k]) == '\n' then '\n' else ' '
    {
      if result[position] != '\n' {
        result[position] := ' ';
      }
    }
  }

  lemma MaskNext(source: string, index: nat, end: nat)
    requires index < |source| && end == index + Region(source[index..])
    ensures var stop := if end > index then Upto(end, |source|) else index + 1;
            && index < stop <= |source|
            && Mask(source[index..]) ==
                 (if end > index then Blank(source[index..stop]) else source[index..stop]) + Mask(source[stop..])
  {
    var t := source[index..];
    var stop := if end > index then Upto(end, |source|) else index + 1;
    Slices(source, index, stop);
    MaskStep(t, end - index, stop - index);
  }

  lemma Slices(source: string, index: nat, stop: nat)
    requires index <= stop <= |source|
    ensures source[index..][..stop - index] == source[index..stop] && source[index..][stop - index..] == source[stop..]
  {
  }

  lemma MaskStep(t: string, n: nat, m: nat)
    requires t != "" && n == Region(t) && m == if n > 0 then Upto(n, |t|) else 1
    ensures Mask(t) == (if n > 0 then Blank(t[..m]) else t[..m]) + Mask(t[m..])
  {
    assert t[..1] == [t[0]];
  }

  /** `buf` is written up to `index`, and with `rest` after that it would be `whole`. */
  ghost predicate Scanned(source: string, buf: string, index: nat, rest: string, whole: string) {
    && index <= |source| == |buf| && buf[index..] == source[index..]
    && buf[..index] + rest == whole
  }

  lemma ScannedOn(source: string, buf: string, index: nat, stop: nat, piece: string, rest: string, whole: string)
    requires index <= stop <= |source| && Scanned(source, buf, index, piece + rest, whole) && |piece| == stop - index
    ensures Scanned(source, buf[..index] + piece + buf[stop..], stop, rest, whole)
  {
    var after := buf[..index] + piece + buf[stop..];
    assert after[stop..] == buf[stop..] == buf[index..][stop - index..] == source[stop..];
    assert after[..stop] == buf[..index] + piece;
    assert (buf[..index] + piece) + rest == buf[..index] + (piece + rest);
  }

  lemma SamePart(source: string, buf: string, index: nat, stop: nat)
    requires index <= stop <= |source| == |buf| && buf[index..] == source[index..]
    ensures buf[index..stop] == source[index..stop]
    ensures buf == buf[..index] + buf[index..stop] + buf[stop..]
  {
    assert buf[index..stop] == buf[index..][..stop - index];
    assert source[index..stop] == source[index..][..stop - index];
  }

  /** One turn of the scan. */
  method ScanOne(source: string, result: array<char>, index: nat) returns (next: nat)
    requires index < |source| && Scanned(source, result[..], index, Mask(source[index..]), Mask(source))
    modifies result
    ensures index < next
    ensures Scanned(source, result[..], Upto(next, |source|), Mask(source[Upto(next, |source|)..]), Mask(source))
  {
    var end := RegionEnd(source, index);
    MaskNext(source, index, end);
    ghost var buf := result[..];
    if end > index {
      var stop := Upto(end, |source|);
      SamePart(source, buf, index, stop);
      BlankOut(result, index, stop);
      ScannedOn(source, buf, index, stop, Blank(source[index..stop]), Mask(source[stop..]), Mask(source));
      next := end;
    } else {
      SamePart(source, buf, index, index + 1);
      ScannedOn(source, buf, index, index + 1, source[index..index + 1], Mask(source[index + 1..]), Mask(source));
      next := index + 1;
    }
  }

  lemma ScanEnds(source: string, buf: string, index: nat, whole: string)
    requires index >= |source|
    requires Scanned(source, buf, Upto(index, |source|), Mask(source[Upto(index, |source|)..]), whole)
    ensures buf == whole
  {
    assert source[|source|..] == "" && buf[..|source|] + "" == buf;
  }

  /** The whole scan, on a buffer of characters. */
  method CodeOnly(source: string) returns (r: string)
    ensures r == Mask(source)
  {
    var result := new char[|source|](i requires 0 <= i < |source| => source[i]);
    assert result[..] == source && source[0..] == source && source[..0] + Mask(source) == Mask(source);
    var index := 0;
    while index < |source|
      invariant Scanned(source, result[..], Upto(index, |source|), Mask(source[Upto(index, |source|)..]), Mask(source))
    {
      index := ScanOne(source, result, index);
    }
    ScanEnds(source, result[..], index, Mask(source));
    r := result[..];
  }
}
