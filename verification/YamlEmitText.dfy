/** Writing a double-quoted scalar: which characters are escaped, and where lines are folded. */
module YamlEmitText {
  import opened Wire
  import opened YamlText

  datatype Settings = Settings(bestWidth: int, indent: int, unicode: bool, lineBreak: LineBreak, allowBreaks: bool)

  datatype LineBreak = CrBreak | LnBreak | CrLnBreak

  function BreakBytes(k: LineBreak): Bytes {
    match k
    case CrBreak => [CR]
    case LnBreak => [LF]
    case CrLnBreak => [CR, LF]
  }

  // ----- Characters -----

  predicate Printable(c: CodePoint) {
    c == LF || 0x20 <= c <= 0x7E || 0xA0 <= c <= 0xD7FF || (0xE000 <= c <= 0xFFFD && c != 0xFEFF)
  }

  predicate BreakCharacter(c: CodePoint) {
    c == CR || c == LF || c == 0x85 || c == 0x2028 || c == 0x2029
  }

  /** The byte order mark at the start of a string makes every character of it special. */
  predicate StartsWithMark(cs: seq<CodePoint>) {
    cs != [] && cs[0] == 0xFEFF
  }

  predicate Special(e: Settings, mark: bool, c: CodePoint) {
    mark || !Printable(c) || (!e.unicode && c > 0x7F) || BreakCharacter(c) || c == QUOTE || c == BACKSLASH
  }

  /** The escape for a character, without the backslash. */
  function EscapeCode(c: CodePoint): Bytes {
    if c == 0x00 then [0x30]
    else if c == 0x07 then [0x61]
    else if c == 0x08 then [0x62]
    else if c == 0x09 then [0x74]
    else if c == 0x0A then [0x6E]
    else if c == 0x0B then [0x76]
    else if c == 0x0C then [0x66]
    else if c == 0x0D then [0x72]
    else if c == 0x1B then [0x65]
    else if c == 0x22 then [0x22]
    else if c == 0x5C then [0x5C]
    else if c == 0x85 then [0x4E]
    else if c == 0xA0 then [0x5F]
    else if c == 0x2028 then [0x4C]
    else if c == 0x2029 then [0x50]
    else if c <= 0xFF then [0x78] + Hex(c, 2)
    else if c <= 0xFFFF then [0x75] + Hex(c, 4)
    else [0x55] + Hex(c, 8)
  }

  function EscapeOf(c: CodePoint): Unit {
    Escape(EscapeCode(c), Utf8(c))
  }

  // ----- Layout -----

  function Blanks(n: nat): (us: seq<Unit>)
    ensures |us| == n && forall i :: 0 <= i < n ==> us[i] == Blank([SPACE])
  {
    seq(n, _ => Blank([SPACE]))
  }

  function Indent(e: Settings): nat {
    if e.indent < 0 then 0 else e.indent
  }

  /** A line break and the indentation of the next line, in place of a space. */
  function FoldUnits(e: Settings): seq<Unit> {
    [Break(BreakBytes(e.lineBreak), [LF])] + Blanks(Indent(e))
  }

  predicate Folds(e: Settings, cs: seq<CodePoint>, i: nat, column: nat, spaces: bool) {
    e.allowBreaks && !spaces && column > e.bestWidth && 0 < i < |cs| - 1
  }

  const ESCAPED_SPACE := Escape([SPACE], [SPACE])

  /** The units for the characters from `i` on; `spaces` if the character in front of `i` is a space. */
  function Layout(e: Settings, cs: seq<CodePoint>, i: nat, column: nat, spaces: bool): seq<Unit>
    decreases |cs| - i
  {
    if i >= |cs| then []
    else if Special(e, StartsWithMark(cs), cs[i]) then
      [EscapeOf(cs[i])] + Layout(e, cs, i + 1, column + 1 + |EscapeCode(cs[i])|, false)
    else if cs[i] != SPACE then [Raw(Utf8(cs[i]))] + Layout(e, cs, i + 1, column + 1, false)
    else if !Folds(e, cs, i, column, spaces) then [Blank([SPACE])] + Layout(e, cs, i + 1, column + 1, true)
    else if cs[i + 1] == SPACE then FoldUnits(e) + [ESCAPED_SPACE] + Layout(e, cs, i + 2, Indent(e) + 2, true)
    else FoldUnits(e) + Layout(e, cs, i + 1, Indent(e), true)
  }

  function TextAll(us: seq<Unit>): Bytes {
    if us == [] then [] else TextOf(us[0]) + TextAll(us[1..])
  }

  lemma {:induction false} TextAppend(us: seq<Unit>, vs: seq<Unit>)
    ensures TextAll(us + vs) == TextAll(us) + TextAll(vs)
  {
    if us == [] {
      assert us + vs == vs;
    } else {
      assert (us + vs)[1..] == us[1..] + vs;
      TextAppend(us[1..], vs);
    }
  }

  // ----- The text of the layout -----

  lemma SpecialText(e: Settings, cs: seq<CodePoint>, i: nat, column: nat, spaces: bool)
    requires i < |cs| && Special(e, StartsWithMark(cs), cs[i])
    ensures TextAll(Layout(e, cs, i, column, spaces))
         == [BACKSLASH] + EscapeCode(cs[i]) + TextAll(Layout(e, cs, i + 1, column + 1 + |EscapeCode(cs[i])|, false))
  {
    hide Special, EscapeCode;
  }

  lemma PlainText(e: Settings, cs: seq<CodePoint>, i: nat, column: nat, spaces: bool)
    requires i < |cs| && !Special(e, StartsWithMark(cs), cs[i]) && cs[i] != SPACE
    ensures TextAll(Layout(e, cs, i, column, spaces)) == Utf8(cs[i]) + TextAll(Layout(e, cs, i + 1, column + 1, false))
  {
    hide Special, Utf8;
  }

  lemma SpaceText(e: Settings, cs: seq<CodePoint>, i: nat, column: nat, spaces: bool)
    requires i < |cs| && !StartsWithMark(cs) && cs[i] == SPACE && !Folds(e, cs, i, column, spaces)
    ensures TextAll(Layout(e, cs, i, column, spaces)) == [SPACE] + TextAll(Layout(e, cs, i + 1, column + 1, true))
  {
    hide StartsWithMark;
  }

  lemma FoldedText(e: Settings, cs: seq<CodePoint>, i: nat, column: nat, spaces: bool)
    requires i < |cs| - 1 && !StartsWithMark(cs) && cs[i] == SPACE && Folds(e, cs, i, column, spaces)
    ensures TextAll(Layout(e, cs, i, column, spaces))
         == TextAll(FoldUnits(e))
            + if cs[i + 1] == SPACE then [BACKSLASH] + ([SPACE] + TextAll(Layout(e, cs, i + 2, Indent(e) + 2, true)))
              else TextAll(Layout(e, cs, i + 1, Indent(e), true))
  {
    hide StartsWithMark, FoldUnits, TextAll;
    if cs[i + 1] == SPACE {
      var us := Layout(e, cs, i + 2, Indent(e) + 2, true);
      TextAppend(FoldUnits(e) + [ESCAPED_SPACE], us);
      TextAppend(FoldUnits(e), [ESCAPED_SPACE]);
      EscapedSpaceText();
    } else {
      TextAppend(FoldUnits(e), Layout(e, cs, i + 1, Indent(e), true));
    }
  }

  lemma NothingRemains(e: Settings, cs: seq<CodePoint>, column: nat, spaces: bool)
    ensures TextAll(Layout(e, cs, |cs|, column, spaces)) == []
  {
  }

  lemma EscapedSpaceText()
    ensures TextAll([ESCAPED_SPACE]) == [BACKSLASH, SPACE]
  {
    assert TextAll([ESCAPED_SPACE]) == TextOf(ESCAPED_SPACE) + TextAll([]);
  }

  // ----- Characters as bytes -----

  predicate IsPrintable(b: Bytes, i: nat) {
    var c := At(b, i);
    || c == LF
    || 0x20 <= c <= 0x7E
    || (c == 0xC2 && At(b, i + 1) >= 0xA0)
    || 0xC2 < c < 0xED
    || (c == 0xED && At(b, i + 1) < 0xA0)
    || c == 0xEE
    || (c == 0xEF && !(At(b, i + 1) == 0xBB && At(b, i + 2) == 0xBF)
        && !(At(b, i + 1) == 0xBF && (At(b, i + 2) == 0xBE || At(b, i + 2) == 0xBF)))
  }

  /** The byte order mark; only the start of the string is looked at. */
  predicate IsBom(b: Bytes) {
    At(b, 0) == 0xEF && At(b, 1) == 0xBB && At(b, 2) == 0xBF
  }

  /** The character `c` stands at `i`. */
  ghost predicate CharAt(b: Bytes, i: nat, c: CodePoint) {
    i + |Utf8(c)| <= |b| && forall k :: 0 <= k < |Utf8(c)| ==> b[i + k] == Utf8(c)[k]
  }

  /** The characters from `k` on stand at `i`, up to the end. */
  ghost predicate Rest(b: Bytes, i: nat, cs: seq<CodePoint>, k: nat) {
    i <= |b| && k <= |cs| && b[i..] == Utf8All(cs[k..])
  }

  lemma RestStep(b: Bytes, i: nat, cs: seq<CodePoint>, k: nat)
    requires Rest(b, i, cs, k)
    ensures k == |cs| <==> i == |b|
    ensures k < |cs| ==> CharAt(b, i, cs[k]) && Rest(b, i + |Utf8(cs[k])|, cs, k + 1)
    ensures k < |cs| ==> (k == |cs| - 1 <==> i + |Utf8(cs[k])| == |b|)
  {
    hide Utf8;
    if k < |cs| {
      var s := Utf8(cs[k]);
      assert cs[k..][1..] == cs[k + 1..];
      assert b[i..] == s + Utf8All(cs[k + 1..]);
      assert forall j :: 0 <= j < |s| ==> b[i + j] == b[i..][j];
      assert b[i + |s|..] == b[i..][|s|..];
      if k + 1 < |cs| {
        assert cs[k + 1..] != [];
      }
    }
  }

  /** What the emitter asks about bytes is what it means to ask about characters. */
  lemma CharacterTests(b: Bytes, i: nat, c: CodePoint)
    requires CharAt(b, i, c)
    ensures IsPrintable(b, i) == Printable(c)
    ensures IsBreak(b, i) == BreakCharacter(c)
    ensures (b[i] <= 0x7F) == (c <= 0x7F) && (c <= 0x7F || b[i] <= 0x7F ==> b[i] == c)
    ensures Width(b[i]) == |Utf8(c)|
  {
    PrintableTest(b, i, c);
    BreakTest(b, i, c);
    hide IsPrintable, Printable, IsBreak, BreakCharacter;
    assert b[i] == Utf8(c)[0];
  }

  lemma PrintableTest(b: Bytes, i: nat, c: CodePoint)
    requires CharAt(b, i, c)
    ensures IsPrintable(b, i) == Printable(c)
  {
    assert b[i] == Utf8(c)[0];
    if c > 0x7F {
      assert b[i + 1] == Utf8(c)[1];
    }
    if c > 0x7FF {
      assert b[i + 2] == Utf8(c)[2];
    }
  }

  lemma BreakTest(b: Bytes, i: nat, c: CodePoint)
    requires CharAt(b, i, c)
    ensures IsBreak(b, i) == BreakCharacter(c)
  {
    assert b[i] == Utf8(c)[0];
    if c > 0x7F {
      assert b[i + 1] == Utf8(c)[1];
    }
    if c > 0x7FF {
      assert b[i + 2] == Utf8(c)[2];
    }
  }

  lemma CharBytes(b: Bytes, i: nat, c: CodePoint)
    requires CharAt(b, i, c)
    ensures i + |Utf8(c)| <= |b| && b[i..i + |Utf8(c)|] == Utf8(c) && Utf8(SPACE) == [SPACE]
  {
    hide Utf8;
    assert Utf8(SPACE) == [SPACE] by {
      SpaceByte();
    }
  }

  lemma SpaceByte()
    ensures Utf8(SPACE) == [SPACE] && Printable(SPACE) && !BreakCharacter(SPACE)
  {
  }

  lemma Regroup(a: Bytes, b: Bytes, c: Bytes, d: Bytes)
    ensures a + (b + c + d) == a + b + c + d && a + (b + (c + d)) == a + b + c + d && a + (b + d) == a + b + d
  {
  }

  lemma BomIs(b: Bytes, cs: seq<CodePoint>)
    requires b == Utf8All(cs)
    ensures IsBom(b) == StartsWithMark(cs)
  {
    if cs != [] {
      var s := Utf8(cs[0]);
      assert forall k :: 0 <= k < |s| ==> b[k] == s[k];
    }
  }

  /** The number that `v` is when its last `4 * n` binary digits are cut off. */
  function Shift(v: nat, n: nat): nat {
    if n == 0 then v else Shift(v / 16, n - 1)
  }

  lemma {:induction false} ShiftStep(v: nat, n: nat)
    ensures Shift(v, n + 1) == Shift(v, n) / 16
  {
    if n > 0 {
      ShiftStep(v / 16, n - 1);
    }
  }

  // ----- The emitter -----

  class Emitter {
    const settings: Settings
    /** Everything that has been written. */
    var buffer: Bytes
    var column: nat
    var whitespace: bool
    var indention: bool

    constructor (settings: Settings, column: nat, whitespace: bool, indention: bool)
      ensures this.settings == settings && buffer == [] && this.column == column
      ensures this.whitespace == whitespace && this.indention == indention
    {
      this.settings, buffer, this.column, this.whitespace, this.indention := settings, [], column, whitespace,
          indention;
    }

    method Put(value: byte)
      modifies this`buffer, this`column
      ensures buffer == old(buffer) + [value] && column == old(column) + 1
    {
      buffer := buffer + [value];
      column := column + 1;
    }

    method PutBreak()
      modifies this`buffer, this`column
      ensures buffer == old(buffer) + BreakBytes(settings.lineBreak) && column == 0
    {
      match settings.lineBreak {
        case CrBreak => buffer := buffer + [CR];
        case LnBreak => buffer := buffer + [LF];
        case CrLnBreak => buffer := buffer + [CR, LF];
      }
      column := 0;
    }

    /** Copy a character. */
    method Write(s: Bytes, i: nat) returns (next: nat)
      requires i < |s| && i + Width(s[i]) <= |s|
      modifies this`buffer, this`column
      ensures next == i + Width(s[i]) && buffer == old(buffer) + s[i..next] && column == old(column) + 1
    {
      var w := Width(s[i]);
      buffer := buffer + s[i..i + w];
      column := column + 1;
      next := i + w;
    }

    method WriteIndicator(indicator: byte, needWhitespace: bool)
      modifies this
      ensures var lead := if needWhitespace && !old(whitespace) then [SPACE] else [];
              buffer == old(buffer) + lead + [indicator] && column == old(column) + |lead| + 1
      ensures !whitespace && !indention
    {
      if needWhitespace && !whitespace {
        Put(SPACE);
      }
      Put(indicator);
      whitespace, indention := false, false;
    }

    /** The text goes on below: a line break is needed unless the line holds nothing but part of the indentation. */
    ghost predicate NeedsBreak()
      reads this
    {
      !indention || column > Indent(settings) || (column == Indent(settings) && !whitespace)
    }

    method WriteIndent()
      modifies this
      ensures column == Indent(settings) && whitespace && indention
      ensures old(NeedsBreak()) ==> buffer == old(buffer) + TextAll(FoldUnits(settings))
      ensures !old(NeedsBreak()) ==> old(column) <= column
                                     && buffer == old(buffer) + TextAll(Blanks(column - old(column)))
    {
      hide BreakBytes, FoldUnits, TextAll;
      NoText();
      var indent := if settings.indent < 0 then 0 else settings.indent;
      if !indention || column > indent || (column == indent && !whitespace) {
        PutBreak();
      }
      ghost var before, start := buffer, column;
      while column < indent
        invariant start <= column <= indent && buffer == before + TextAll(Blanks(column - start))
      {
        MoreBlanks(column - start);
        Put(SPACE);
      }
      FoldText(settings);
      whitespace, indention := true, true;
    }

    /** The number of the character at `i`, and its width. */
    method Decode(value: Bytes, i: nat, ghost c: CodePoint) returns (w: nat, v: nat)
      requires CharAt(value, i, c)
      ensures w == |Utf8(c)| && v == c
    {
      var octet := value[i];
      w, v := 0, 0;
      CharacterTests(value, i, c);
      FrontStart(c);
      hide Utf8, Front;
      assert octet == value[i + 0] == Utf8(c)[0];
      if octet < 0x80 {
        w, v := 1, octet;
      } else if 0xC0 <= octet < 0xE0 {
        w, v := 2, octet % 0x20;
      } else if 0xE0 <= octet < 0xF0 {
        w, v := 3, octet % 0x10;
      } else if 0xF0 <= octet < 0xF8 {
        w, v := 4, octet % 0x08;
      }
      var k := 1;
      while k < w
        invariant 1 <= k <= w == |Utf8(c)| && v == Front(c, w - k)
      {
        FrontStep(c, k);
        assert value[i + k] == Utf8(c)[k];
        v := v * 64 + value[i + k] % 64;
        k := k + 1;
      }
      WholeFront(c);
    }

    method PutHex(v: nat, w: nat)
      modifies this`buffer, this`column
      ensures buffer == old(buffer) + Hex(v, w) && column == old(column) + w
    {
      var k := w;
      while k > 0
        invariant 0 <= k <= w && buffer == old(buffer) + Hex(Shift(v, k), w - k) && column == old(column) + w - k
      {
        k := k - 1;
        ShiftStep(v, k);
        var digit := Shift(v, k) % 16;
        Put(if digit < 10 then digit + 0x30 else digit + 0x41 - 10);
      }
    }

    /** The escape for a character, behind its backslash. */
    method PutEscape(v: CodePoint)
      modifies this`buffer, this`column
      ensures buffer == old(buffer) + EscapeCode(v) && column == old(column) + |EscapeCode(v)|
    {
      hide Hex;
      if v == 0x00 {
        Put(0x30);
      } else if v == 0x07 {
        Put(0x61);
      } else if v == 0x08 {
        Put(0x62);
      } else if v == 0x09 {
        Put(0x74);
      } else if v == 0x0A {
        Put(0x6E);
      } else if v == 0x0B {
        Put(0x76);
      } else if v == 0x0C {
        Put(0x66);
      } else if v == 0x0D {
        Put(0x72);
      } else if v == 0x1B {
        Put(0x65);
      } else if v == 0x22 {
        Put(0x22);
      } else if v == 0x5C {
        Put(0x5C);
      } else if v == 0x85 {
        Put(0x4E);
      } else if v == 0xA0 {
        Put(0x5F);
      } else if v == 0x2028 {
        Put(0x4C);
      } else if v == 0x2029 {
        Put(0x50);
      } else if v <= 0xFF {
        Put(0x78);
        PutHex(v, 2);
      } else if v <= 0xFFFF {
        Put(0x75);
        PutHex(v, 4);
      } else {
        Put(0x55);
        PutHex(v, 8);
      }
    }

    /** The escape for the character at `i`. */
    method WriteEscape(value: Bytes, i: nat, ghost c: CodePoint) returns (next: nat)
      requires CharAt(value, i, c)
      modifies this`buffer, this`column
      ensures next == i + |Utf8(c)| && buffer == old(buffer) + [BACKSLASH] + EscapeCode(c)
              && column == old(column) + 1 + |EscapeCode(c)|
    {
      hide CharAt, EscapeCode;
      var w, v := Decode(value, i, c);
      Put(BACKSLASH);
      PutEscape(v);
      next := i + w;
    }

    /** The text that is still to be written; after a fold, the backslash of an escaped space may have been. */
    ghost function Remaining(cs: seq<CodePoint>, k: nat, spaces: bool, pending: bool): Bytes
      reads this
    {
      if pending then [SPACE] + TextAll(Layout(settings, cs, k + 1, column + 1, true))
          else TextAll(Layout(settings, cs, k, column, spaces))
    }

    /** A space, or a line break and the indentation in its place. */
    method WriteSpace(value: Bytes, i: nat, spaces: bool, ghost cs: seq<CodePoint>, ghost k: nat, ghost pending: bool)
      returns (i': nat, ghost pending': bool)
      requires k < |cs| && Rest(value, i, cs, k) && i < |value| && (i > 0 <==> k > 0)
      requires cs[k] == SPACE == value[i] && !StartsWithMark(cs) && (pending ==> spaces)
      requires indention ==> column >= Indent(settings) && (!spaces ==> column > Indent(settings))
      modifies this
      ensures i' == i + 1 && (pending' ==> k + 1 < |cs| && cs[k + 1] == SPACE)
      ensures indention ==> column >= Indent(settings)
      ensures old(buffer + Remaining(cs, k, spaces, pending)) == buffer + Remaining(cs, k + 1, true, pending')
    {
      hide Utf8, StartsWithMark, Layout, TextAll, FoldUnits, Utf8All;
      RestStep(value, i, cs, k);
      SpaceByte();
      pending' := false;
      if settings.allowBreaks && !spaces && column > settings.bestWidth && i > 0 && i < |value| - 1 {
        RestStep(value, i + 1, cs, k + 1);
        CharacterTests(value, i + 1, cs[k + 1]);
        FoldedText(settings, cs, k, column, spaces);
        WriteIndent();
        if value[i + 1] == SPACE {
          Put(BACKSLASH);
          pending' := true;
        }
        Regroup(old(buffer), TextAll(FoldUnits(settings)), [BACKSLASH], Remaining(cs, k + 1, true, pending'));
        i' := i + Width(value[i]);
      } else {
        if !pending {
          SpaceText(settings, cs, k, column, spaces);
        }
        i' := Write(value, i);
        Regroup(old(buffer), [SPACE], [], Remaining(cs, k + 1, true, false));
      }
    }

    /** One character of the string. */
    method WriteCharacter(value: Bytes, i: nat, spaces: bool, ghost cs: seq<CodePoint>, ghost k: nat,
                          ghost pending: bool)
      returns (i': nat, spaces': bool, ghost k': nat, ghost pending': bool)
      requires value == Utf8All(cs) && k < |cs| && Rest(value, i, cs, k) && i < |value| && (i > 0 <==> k > 0)
      requires pending ==> cs[k] == SPACE && spaces && !StartsWithMark(cs)
      requires indention ==> column >= Indent(settings) && (!spaces ==> column > Indent(settings))
      modifies this
      ensures k' == k + 1 && i' > i && Rest(value, i', cs, k')
      ensures pending' ==> k' < |cs| && cs[k'] == SPACE && spaces' && !StartsWithMark(cs)
      ensures indention ==> column >= Indent(settings) && (!spaces' ==> column > Indent(settings))
      ensures old(buffer + Remaining(cs, k, spaces, pending)) == buffer + Remaining(cs, k', spaces', pending')
    {
      hide Printable, BreakCharacter, Utf8, EscapeCode, IsPrintable, IsBreak, IsBom, StartsWithMark, Layout, TextAll,
          Utf8All, Width, CharAt, Rest;
      ghost var c := cs[k];
      RestStep(value, i, cs, k);
      CharacterTests(value, i, c);
      CharBytes(value, i, c);
      SpaceByte();
      BomIs(value, cs);
      k', pending' := k + 1, false;
      if !IsPrintable(value, i) || (!settings.unicode && value[i] > 0x7F) || IsBom(value) || IsBreak(value, i)
         || value[i] == QUOTE || value[i] == BACKSLASH
      {
        SpecialText(settings, cs, k, column, spaces);
        i' := WriteEscape(value, i, c);
        spaces' := false;
        Regroup(old(buffer), [BACKSLASH], EscapeCode(c), Remaining(cs, k', false, false));
      } else if value[i] == SPACE {
        i', pending' := WriteSpace(value, i, spaces, cs, k, pending);
        spaces' := true;
      } else {
        PlainText(settings, cs, k, column, spaces);
        i' := Write(value, i);
        spaces' := false;
        Regroup(old(buffer), Utf8(c), [], Remaining(cs, k', false, false));
      }
    }

    /** A whole scalar, for any valid UTF-8 string. */
    method WriteDoubleQuoted(value: Bytes, ghost cs: seq<CodePoint>)
      requires value == Utf8All(cs)
      modifies this
      ensures var lead := if old(whitespace) then [] else [SPACE];
              buffer == old(buffer) + lead
                  + ([QUOTE] + TextAll(Layout(settings, cs, 0, old(column) + |lead| + 1, false)) + [QUOTE])
      ensures !whitespace && !indention
    {
      hide Utf8All, Layout, TextAll;
      ghost var lead := if whitespace then [] else [SPACE];
      WriteIndicator(QUOTE, true);
      ghost var text := TextAll(Layout(settings, cs, 0, column, false));
      ghost var whole := buffer + text;
      var spaces, i := false, 0;
      ghost var k, pending := 0, false;
      assert cs[0..] == cs && value[0..] == value;
      while i < |value|
        invariant Rest(value, i, cs, k) && (i > 0 <==> k > 0)
        invariant pending ==> k < |cs| && cs[k] == SPACE && spaces && !StartsWithMark(cs)
        invariant indention ==> column >= Indent(settings) && (!spaces ==> column > Indent(settings))
        invariant buffer + Remaining(cs, k, spaces, pending) == whole
        decreases |value| - i
      {
        RestStep(value, i, cs, k);
        i, spaces, k, pending := WriteCharacter(value, i, spaces, cs, k, pending);
      }
      RestStep(value, i, cs, k);
      NothingRemains(settings, cs, column, spaces);
      assert buffer + [] == buffer;
      WriteIndicator(QUOTE, false);
      assert old(buffer) + lead + [QUOTE] + text + [QUOTE] == old(buffer) + lead + ([QUOTE] + text + [QUOTE]);
    }
  }

  /** The number without its last `n` groups of six binary digits. */
  function Front(c: CodePoint, n: nat): nat {
    if n == 0 then c else if n == 1 then c / 64 else if n == 2 then c / 4096 else c / 262144
  }

  lemma WholeFront(c: CodePoint)
    ensures Front(c, 0) == c
  {
  }

  lemma FrontStart(c: CodePoint)
    ensures var w, octet := |Utf8(c)|, Utf8(c)[0];
            Front(c, w - 1) == if w == 1 then octet else if w == 2 then octet % 0x20 else if w == 3 then octet % 0x10
                else octet % 0x08
  {
  }

  lemma FrontStep(c: CodePoint, k: nat)
    requires 1 <= k < |Utf8(c)|
    ensures Front(c, |Utf8(c)| - k - 1) == Front(c, |Utf8(c)| - k) * 64 + Utf8(c)[k] % 64
  {
    Groups(c);
    Continuation(c);
    Continuation(c / 64);
    Continuation(c / 4096);
  }

  lemma Groups(c: nat)
    ensures c == 64 * (c / 64) + c % 64
    ensures c / 64 == 64 * (c / 4096) + c / 64 % 64
    ensures c / 4096 == 64 * (c / 262144) + c / 4096 % 64
  {
  }

  lemma Continuation(c: nat)
    ensures (0x80 + c % 64) % 64 == c % 64
  {
  }

  lemma MoreBlanks(n: nat)
    ensures TextAll(Blanks(n + 1)) == TextAll(Blanks(n)) + [SPACE]
  {
    assert Blanks(n + 1) == Blanks(n) + [Blank([SPACE])];
    TextAppend(Blanks(n), [Blank([SPACE])]);
    assert TextAll([Blank([SPACE])]) == [SPACE] + [];
  }

  lemma NoText()
    ensures TextAll(Blanks(0)) == []
  {
  }

  lemma FoldText(e: Settings)
    ensures TextAll(FoldUnits(e)) == BreakBytes(e.lineBreak) + TextAll(Blanks(Indent(e)))
  {
    assert FoldUnits(e)[1..] == Blanks(Indent(e));
  }
}
