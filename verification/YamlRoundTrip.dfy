/** Scanning a double-quoted scalar that the emitter has written yields the string that it was given. */
module YamlRoundTrip {
  import opened Wire
  import opened Wrappers
  import opened YamlText
  import opened YamlEmitText
  import opened YamlScanText

  /** `t` stands at `p`. */
  ghost predicate Stands(b: Bytes, p: nat, t: Bytes) {
    p + |t| <= |b| && b[p..p + |t|] == t
  }

  lemma StandsSplit(b: Bytes, p: nat, s: Bytes, t: Bytes)
    requires Stands(b, p, s + t)
    ensures Stands(b, p, s) && Stands(b, p + |s|, t)
  {
    var m, e := p + |s|, p + |s| + |t|;
    assert b[p..e][..|s|] == b[p..m];
    assert b[p..e][|s|..] == b[m..e];
  }

  lemma StandsAt(b: Bytes, p: nat, t: Bytes, k: nat)
    requires Stands(b, p, t) && k < |t|
    ensures At(b, p + k) == t[k]
  {
    assert b[p..p + |t|][k] == b[p + k];
  }

  // ----- Single units -----

  lemma LexRaw(b: Bytes, p: nat, c: CodePoint)
    requires Stands(b, p, Utf8(c)) && Printable(c) && !BreakCharacter(c) && c != SPACE && c != QUOTE && c != BACKSLASH
    ensures NextUnit(b, p) == Some(Raw(Utf8(c))) && At(b, p) != QUOTE
  {
    var s := Utf8(c);
    StandsAt(b, p, s, 0);
    if |s| > 1 {
      StandsAt(b, p, s, 1);
    }
    if |s| > 2 {
      StandsAt(b, p, s, 2);
    }
    RawIsNoBreak(b, p, c);
    hide IsBreak, NextEscape;
    assert Width(At(b, p)) == |s|;
  }

  lemma RawIsNoBreak(b: Bytes, p: nat, c: CodePoint)
    requires Stands(b, p, Utf8(c)) && !BreakCharacter(c)
    ensures !IsBreak(b, p)
  {
    var s := Utf8(c);
    StandsAt(b, p, s, 0);
    if |s| > 1 {
      StandsAt(b, p, s, 1);
    }
    if |s| > 2 {
      StandsAt(b, p, s, 2);
    }
  }

  lemma {:induction false} HexReads(b: Bytes, p: nat, v: nat, n: nat)
    requires Stands(b, p, Hex(v, n)) && v < Power16(n)
    ensures HexValue(b, p, n) == Some(v)
  {
    if n > 0 {
      StandsSplit(b, p, Hex(v / 16, n - 1), [HexDigit(v % 16)]);
      StandsAt(b, p, Hex(v, n), n - 1);
      HexReads(b, p, v / 16, n - 1);
      DigitReads(v % 16);
      assert v == 16 * (v / 16) + v % 16;
    }
  }

  function Power16(n: nat): nat {
    if n == 0 then 1 else 16 * Power16(n - 1)
  }

  lemma DigitReads(d: nat)
    requires d < 16
    ensures IsHex(HexDigit(d)) && AsHex(HexDigit(d)) == d
  {
  }

  lemma Powers()
    ensures Power16(2) == 0x100 && Power16(4) == 0x1_0000 && Power16(8) == 0x1_0000_0000
  {
  }

  /** An escape is a letter that stands for the character, or the number of the character. */
  lemma CodeIs(c: CodePoint)
    ensures var s := EscapeCode(c);
            && |s| > 0 && 0x20 < s[0] < 0x80
            && (Letter(s[0]).Some? ==> |s| == 1 && Letter(s[0]).value == Utf8(c))
            && (Letter(s[0]).None? ==> CodeLength(s[0]) > 0 && s == [s[0]] + Hex(c, CodeLength(s[0]))
                                       && c < Power16(CodeLength(s[0])))
  {
    hide Hex, Power16;
    Powers();
  }

  lemma EscapeReads(b: Bytes, p: nat, c: CodePoint)
    requires Stands(b, p, EscapeCode(c))
    ensures NextEscape(b, p) == Some(EscapeOf(c)) && !IsBreak(b, p)
  {
    hide EscapeCode, Letter, CodeLength, Utf8, Power16, Hex;
    CodeIs(c);
    var s := EscapeCode(c);
    StandsAt(b, p, s, 0);
    if Letter(s[0]).None? {
      StandsSplit(b, p, [s[0]], Hex(c, CodeLength(s[0])));
      HexReads(b, p + 1, c, CodeLength(s[0]));
    } else {
      assert s == [s[0]];
    }
  }

  lemma LexEscape(b: Bytes, p: nat, c: CodePoint)
    requires Stands(b, p, TextOf(EscapeOf(c)))
    ensures NextUnit(b, p) == Some(EscapeOf(c)) && At(b, p) != QUOTE
  {
    StandsAt(b, p, TextOf(EscapeOf(c)), 0);
    StandsSplit(b, p, [BACKSLASH], EscapeCode(c));
    EscapeReads(b, p + 1, c);
    hide EscapeCode, NextEscape;
  }

  lemma LexEscapedSpace(b: Bytes, p: nat)
    requires Stands(b, p, TextOf(ESCAPED_SPACE))
    ensures NextUnit(b, p) == Some(ESCAPED_SPACE) && At(b, p) != QUOTE
  {
    StandsAt(b, p, TextOf(ESCAPED_SPACE), 0);
    StandsAt(b, p, TextOf(ESCAPED_SPACE), 1);
  }

  lemma LexBreak(b: Bytes, p: nat, k: LineBreak)
    requires Stands(b, p, BreakBytes(k)) && At(b, p + |BreakBytes(k)|) == SPACE
    ensures NextUnit(b, p) == Some(Break(BreakBytes(k), [LF])) && At(b, p) != QUOTE
  {
    StandsAt(b, p, BreakBytes(k), 0);
    if k.CrLnBreak? {
      StandsAt(b, p, BreakBytes(k), 1);
    }
    hide NextEscape;
  }

  // ----- Scanning units -----

  lemma {:induction false} OneText(u: Unit)
    ensures TextAll([u]) == TextOf(u)
  {
    assert TextAll([u]) == TextOf(u) + TextAll([]);
  }

  /** One unit of the scan. */
  lemma ScanUnit(b: Bytes, p: nat, lineStart: bool, r: Reading, u: Unit)
    requires NextUnit(b, p) == Some(u) && At(b, p) != QUOTE && !(lineStart && IsDocumentIndicator(b, p))
    ensures Scan(b, p, lineStart, r) == Scan(b, p + |TextOf(u)|, EndsLine(u), Feed(r, u))
  {
    hide NextUnit, Feed, IsDocumentIndicator;
  }

  /** The scan of `us` leads from `r` to `r'`. */
  ghost predicate Leads(b: Bytes, p: nat, r: Reading, us: seq<Unit>, r': Reading) {
    Scan(b, p, false, r) == Scan(b, p + |TextAll(us)|, false, r')
  }

  lemma ReadsEscape(b: Bytes, p: nat, r: Reading, c: CodePoint)
    requires Stands(b, p, TextAll([EscapeOf(c)]))
    ensures Leads(b, p, r, [EscapeOf(c)], Reading(Settled(r) + Utf8(c), NO_GAP))
  {
    hide Scan, NextUnit, EscapeCode, Utf8, TextAll;
    OneText(EscapeOf(c));
    LexEscape(b, p, c);
    ScanUnit(b, p, false, r, EscapeOf(c));
  }

  lemma ReadsEscapedSpace(b: Bytes, p: nat, r: Reading)
    requires Stands(b, p, TextAll([ESCAPED_SPACE]))
    ensures Leads(b, p, r, [ESCAPED_SPACE], Reading(Settled(r) + [SPACE], NO_GAP))
  {
    hide Scan, NextUnit, TextAll;
    OneText(ESCAPED_SPACE);
    LexEscapedSpace(b, p);
    ScanUnit(b, p, false, r, ESCAPED_SPACE);
  }

  lemma ReadsRaw(b: Bytes, p: nat, r: Reading, c: CodePoint)
    requires Stands(b, p, TextAll([Raw(Utf8(c))])) && Printable(c) && !BreakCharacter(c) && c != SPACE && c != QUOTE
             && c != BACKSLASH
    ensures Leads(b, p, r, [Raw(Utf8(c))], Reading(Settled(r) + Utf8(c), NO_GAP))
  {
    hide Scan, NextUnit, Utf8, TextAll;
    OneText(Raw(Utf8(c)));
    LexRaw(b, p, c);
    ScanUnit(b, p, false, r, Raw(Utf8(c)));
  }

  lemma LexBlank(b: Bytes, p: nat)
    requires Stands(b, p, [SPACE])
    ensures NextUnit(b, p) == Some(Blank([SPACE])) && At(b, p) != QUOTE && !IsDocumentIndicator(b, p)
  {
    StandsAt(b, p, [SPACE], 0);
  }

  lemma ReadsBlank(b: Bytes, p: nat, r: Reading)
    requires Stands(b, p, TextAll([Blank([SPACE])])) && !r.gap.broken
    ensures Leads(b, p, r, [Blank([SPACE])], r.(gap := r.gap.(spaces := r.gap.spaces + [SPACE])))
  {
    hide Scan, NextUnit, TextAll;
    OneText(Blank([SPACE]));
    LexBlank(b, p);
    ScanUnit(b, p, false, r, Blank([SPACE]));
  }

  /** The indentation of a folded line is no part of the string. */
  lemma {:induction false} BlanksSkip(b: Bytes, p: nat, n: nat, lineStart: bool, r: Reading)
    requires n > 0 && Stands(b, p, TextAll(Blanks(n))) && r.gap.broken
    ensures |TextAll(Blanks(n))| == n && Scan(b, p, lineStart, r) == Scan(b, p + n, false, r)
    decreases n
  {
    hide Scan, NextUnit, IsDocumentIndicator;
    assert Blanks(n)[1..] == Blanks(n - 1);
    StandsSplit(b, p, [SPACE], TextAll(Blanks(n - 1)));
    LexBlank(b, p);
    ScanUnit(b, p, lineStart, r, Blank([SPACE]));
    if n > 1 {
      BlanksSkip(b, p + 1, n - 1, false, r);
    } else {
      assert TextAll(Blanks(0)) == [];
    }
  }

  const FOLDED := Gap([], true, [LF], [])

  /** A fold is read as a space. */
  lemma ReadsFold(e: Settings, b: Bytes, p: nat, s: Bytes)
    requires e.indent > 0 && Stands(b, p, TextAll(FoldUnits(e)))
    ensures Leads(b, p, Reading(s, NO_GAP), FoldUnits(e), Reading(s, FOLDED))
  {
    hide Scan, BreakBytes, NextUnit, TextAll;
    var k, n := BreakBytes(e.lineBreak), Indent(e);
    FoldText(e);
    BlankText(n);
    StandsSplit(b, p, k, TextAll(Blanks(n)));
    BlanksSkip(b, p + |k|, n, true, Reading(s, FOLDED));
    StandsAt(b, p + |k|, TextAll(Blanks(n)), 0);
    LexBreak(b, p, e.lineBreak);
    ScanUnit(b, p, false, Reading(s, NO_GAP), Break(k, [LF]));
  }

  lemma BlankText(n: nat)
    requires n > 0
    ensures TextAll(Blanks(n)) != [] && TextAll(Blanks(n))[0] == SPACE
  {
  }

  // ----- Scanning the layout -----

  /** What has been read in front of a character: only spaces are pending, or a fold. */
  ghost predicate Pending(cs: seq<CodePoint>, i: nat, spaces: bool, g: Gap) {
    && (!spaces ==> g == NO_GAP)
    && (if g.broken then g == FOLDED && i < |cs| && cs[i] != SPACE else g.lead == [] && g.trail == [])
  }

  /** The text of `us` and a quote stand at `p`, and the scan reads `x` from them. */
  ghost predicate Yields(b: Bytes, p: nat, r: Reading, us: seq<Unit>, x: Bytes) {
    Scan(b, p, false, r) == Some((Settled(r) + x, p + |TextAll(us)| + 1))
  }

  lemma Chain(b: Bytes, p: nat, r: Reading, us: seq<Unit>, r': Reading, vs: seq<Unit>, x: Bytes, y: Bytes)
    requires Leads(b, p, r, us, r') && Settled(r') == Settled(r) + x && Yields(b, p + |TextAll(us)|, r', vs, y)
    ensures Yields(b, p, r, us + vs, x + y)
  {
    hide Scan, Settled, TextAll;
    TextAppend(us, vs);
    assert Settled(r) + x + y == Settled(r) + (x + y);
  }

  lemma StandsUnits(b: Bytes, p: nat, us: seq<Unit>, vs: seq<Unit>)
    requires Stands(b, p, TextAll(us + vs) + [QUOTE])
    ensures Stands(b, p, TextAll(us)) && Stands(b, p + |TextAll(us)|, TextAll(vs) + [QUOTE])
  {
    hide TextAll;
    TextAppend(us, vs);
    assert TextAll(us + vs) + [QUOTE] == TextAll(us) + (TextAll(vs) + [QUOTE]);
    StandsSplit(b, p, TextAll(us), TextAll(vs) + [QUOTE]);
  }

  lemma YieldsNothing(b: Bytes, p: nat, r: Reading)
    requires Stands(b, p, TextAll([]) + [QUOTE])
    ensures Yields(b, p, r, [], [])
  {
    assert TextAll([]) + [QUOTE] == [QUOTE];
    StandsAt(b, p, [QUOTE], 0);
    assert Settled(r) + [] == Settled(r);
  }

  lemma Utf8Step(cs: seq<CodePoint>, i: nat)
    requires i < |cs|
    ensures Utf8All(cs[i..]) == Utf8(cs[i]) + Utf8All(cs[i + 1..])
    ensures cs[i] == SPACE ==> Utf8(cs[i]) == [SPACE]
  {
    assert cs[i..][1..] == cs[i + 1..];
  }

  lemma {:induction false} YieldsLayout(e: Settings, cs: seq<CodePoint>, i: nat, column: nat, spaces: bool, b: Bytes,
                                        p: nat, r: Reading)
    requires e.indent > 0 && i <= |cs| && Pending(cs, i, spaces, r.gap)
    requires Stands(b, p, TextAll(Layout(e, cs, i, column, spaces)) + [QUOTE])
    ensures Yields(b, p, r, Layout(e, cs, i, column, spaces), Utf8All(cs[i..]))
    decreases |cs| - i, 2
  {
    hide Yields, Leads, Stands, TextAll, Utf8All, EscapeOf, Utf8, FoldUnits, Printable, BreakCharacter;
    if i == |cs| {
      YieldsNothing(b, p, r);
      NoBytes();
      assert cs[i..] == [];
    } else {
      Utf8Step(cs, i);
      var c := cs[i];
      if Special(e, StartsWithMark(cs), c) {
        var us, column', r' := [EscapeOf(c)], column + 1 + |EscapeCode(c)|, Reading(Settled(r) + Utf8(c), NO_GAP);
        var vs := Layout(e, cs, i + 1, column', false);
        StandsUnits(b, p, us, vs);
        ReadsEscape(b, p, r, c);
        YieldsLayout(e, cs, i + 1, column', false, b, p + |TextAll(us)|, r');
        Chain(b, p, r, us, r', vs, Utf8(c), Utf8All(cs[i + 1..]));
      } else if c != SPACE {
        var us, r' := [Raw(Utf8(c))], Reading(Settled(r) + Utf8(c), NO_GAP);
        var vs := Layout(e, cs, i + 1, column + 1, false);
        StandsUnits(b, p, us, vs);
        ReadsRaw(b, p, r, c);
        YieldsLayout(e, cs, i + 1, column + 1, false, b, p + |TextAll(us)|, r');
        Chain(b, p, r, us, r', vs, Utf8(c), Utf8All(cs[i + 1..]));
      } else if !Folds(e, cs, i, column, spaces) {
        var us, r' := [Blank([SPACE])], r.(gap := r.gap.(spaces := r.gap.spaces + [SPACE]));
        var vs := Layout(e, cs, i + 1, column + 1, true);
        StandsUnits(b, p, us, vs);
        ReadsBlank(b, p, r);
        assert Settled(r') == Settled(r) + [SPACE];
        YieldsLayout(e, cs, i + 1, column + 1, true, b, p + |TextAll(us)|, r');
        Chain(b, p, r, us, r', vs, [SPACE], Utf8All(cs[i + 1..]));
      } else {
        YieldsFold(e, cs, i, column, b, p, r);
      }
    }
  }

  lemma NoBytes()
    ensures Utf8All([]) == []
  {
  }

  lemma LayoutFolds(e: Settings, cs: seq<CodePoint>, i: nat, column: nat)
    requires i < |cs| && !Special(e, StartsWithMark(cs), cs[i]) && cs[i] == SPACE && Folds(e, cs, i, column, false)
    ensures Layout(e, cs, i, column, false)
         == if cs[i + 1] == SPACE then FoldUnits(e) + [ESCAPED_SPACE] + Layout(e, cs, i + 2, Indent(e) + 2, true)
            else FoldUnits(e) + Layout(e, cs, i + 1, Indent(e), true)
  {
  }

  /** The space after a fold is escaped. */
  lemma YieldsFoldedSpaces(e: Settings, b: Bytes, p: nat, r: Reading, vs: seq<Unit>, y: Bytes)
    requires e.indent > 0 && r.gap == NO_GAP && Stands(b, p, TextAll(FoldUnits(e) + ([ESCAPED_SPACE] + vs)) + [QUOTE])
    requires Yields(b, p + |TextAll(FoldUnits(e))| + |TextAll([ESCAPED_SPACE])|,
                    Reading(r.done + [SPACE] + [SPACE], NO_GAP), vs, y)
    ensures Yields(b, p, r, FoldUnits(e) + ([ESCAPED_SPACE] + vs), [SPACE] + ([SPACE] + y))
  {
    hide Yields, Leads, Stands, TextAll, FoldUnits;
    var us, r' := FoldUnits(e), r.(gap := FOLDED);
    var r'' := Reading(r.done + [SPACE] + [SPACE], NO_GAP);
    var q := p + |TextAll(us)|;
    StandsUnits(b, p, us, [ESCAPED_SPACE] + vs);
    StandsUnits(b, q, [ESCAPED_SPACE], vs);
    ReadsFold(e, b, p, r.done);
    ReadsEscapedSpace(b, q, r');
    Chain(b, q, r', [ESCAPED_SPACE], r'', vs, [SPACE], y);
    Chain(b, p, r, us, r', [ESCAPED_SPACE] + vs, [SPACE], [SPACE] + y);
  }

  lemma {:induction false} YieldsFoldAndSpace(e: Settings, cs: seq<CodePoint>, i: nat, column: nat, b: Bytes, p: nat,
                                              r: Reading)
    requires e.indent > 0 && i < |cs| && r.gap == NO_GAP
    requires !Special(e, StartsWithMark(cs), cs[i]) && cs[i] == SPACE && Folds(e, cs, i, column, false)
    requires cs[i + 1] == SPACE
    requires Stands(b, p, TextAll(Layout(e, cs, i, column, false)) + [QUOTE])
    ensures Yields(b, p, r, Layout(e, cs, i, column, false), Utf8All(cs[i..]))
    decreases |cs| - i, 0
  {
    hide Yields, Leads, Stands, TextAll, Utf8All, Utf8, FoldUnits, Special, Layout;
    LayoutFolds(e, cs, i, column);
    var us, vs := FoldUnits(e), Layout(e, cs, i + 2, Indent(e) + 2, true);
    var q := p + |TextAll(us)|;
    assert us + [ESCAPED_SPACE] + vs == us + ([ESCAPED_SPACE] + vs);
    StandsUnits(b, p, us, [ESCAPED_SPACE] + vs);
    StandsUnits(b, q, [ESCAPED_SPACE], vs);
    Utf8Step(cs, i);
    Utf8Step(cs, i + 1);
    YieldsLayout(e, cs, i + 2, Indent(e) + 2, true, b, q + |TextAll([ESCAPED_SPACE])|,
                 Reading(r.done + [SPACE] + [SPACE], NO_GAP));
    YieldsFoldedSpaces(e, b, p, r, vs, Utf8All(cs[i + 2..]));
  }

  lemma {:induction false} YieldsFold(e: Settings, cs: seq<CodePoint>, i: nat, column: nat, b: Bytes, p: nat,
                                      r: Reading)
    requires e.indent > 0 && i < |cs| && r.gap == NO_GAP
    requires !Special(e, StartsWithMark(cs), cs[i]) && cs[i] == SPACE && Folds(e, cs, i, column, false)
    requires Stands(b, p, TextAll(Layout(e, cs, i, column, false)) + [QUOTE])
    ensures Yields(b, p, r, Layout(e, cs, i, column, false), Utf8All(cs[i..]))
    decreases |cs| - i, 1
  {
    hide Yields, Leads, Stands, TextAll, Utf8All, Utf8, FoldUnits, Special, Layout;
    if cs[i + 1] == SPACE {
      YieldsFoldAndSpace(e, cs, i, column, b, p, r);
    } else {
      LayoutFolds(e, cs, i, column);
      Utf8Step(cs, i);
      var us, r' := FoldUnits(e), r.(gap := FOLDED);
      var q := p + |TextAll(us)|;
      var vs := Layout(e, cs, i + 1, Indent(e), true);
      StandsUnits(b, p, us, vs);
      ReadsFold(e, b, p, r.done);
      YieldsLayout(e, cs, i + 1, Indent(e), true, b, q, r');
      Chain(b, p, r, us, r', vs, [SPACE], Utf8All(cs[i + 1..]));
    }
  }

  /**
   Reading back: wherever the scalar stands, whatever follows it, and for every line width, positive
   indent, line-break style and unicode setting, the scan yields the string and stops behind it.
   */
  lemma ReadsBack(e: Settings, cs: seq<CodePoint>, column: nat, b: Bytes, p: nat)
    requires e.indent > 0 && Stands(b, p, [QUOTE] + TextAll(Layout(e, cs, 0, column, false)) + [QUOTE])
    ensures Scan(b, p + 1, false, Reading([], NO_GAP))
            == Some((Utf8All(cs), p + |TextAll(Layout(e, cs, 0, column, false))| + 2))
  {
    hide Scan, Layout, TextAll, Utf8All;
    var t := TextAll(Layout(e, cs, 0, column, false));
    assert [QUOTE] + t + [QUOTE] == [QUOTE] + (t + [QUOTE]);
    StandsSplit(b, p, [QUOTE], t + [QUOTE]);
    YieldsLayout(e, cs, 0, column, false, b, p + 1, Reading([], NO_GAP));
    assert cs[0..] == cs;
    assert Settled(Reading([], NO_GAP)) + Utf8All(cs) == Utf8All(cs);
  }

  /** A scalar that is written, followed by anything, and scanned. */
  method WriteAndScan(e: Settings, value: Bytes, ghost cs: seq<CodePoint>, column: nat, whitespace: bool, rest: Bytes)
      returns (r: Option<Bytes>, left: Bytes)
    requires value == Utf8All(cs) && e.indent > 0
    ensures r == Some(value) && left == rest
  {
    hide Scan, TextAll, Layout, Utf8All;
    var emitter := new Emitter(e, column, whitespace, false);
    emitter.WriteDoubleQuoted(value, cs);
    var start := if whitespace then 0 else 1;
    ghost var lead := if whitespace then [] else [SPACE];
    ghost var t := [QUOTE] + TextAll(Layout(e, cs, 0, column + |lead| + 1, false)) + [QUOTE];
    var text := emitter.buffer + rest;
    assert text[start..start + |t|] == t;
    assert text[start] == QUOTE;
    ReadsBack(e, cs, column + |lead| + 1, text, start);
    var scanner := new Scanner(text, start, column);
    r := scanner.ScanDoubleQuoted();
    left := text[scanner.pos..];
  }
}
