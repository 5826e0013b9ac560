/** Scanning a double-quoted scalar from a buffer of characters. */
module YamlScanText {
  import opened Wire
  import opened Wrappers
  import opened YamlText

  /** The string that a unit other than white space adds. */
  function Meaning(u: Unit): Bytes {
    match u
    case Raw(bytes) => bytes
    case Escape(_, meaning) => meaning
    case _ => []
  }

  class Scanner {
    const buffer: Bytes
    var pos: nat
    var column: nat

    constructor (buffer: Bytes, pos: nat, column: nat)
      ensures this.buffer == buffer && this.pos == pos && this.column == column
    {
      this.buffer, this.pos, this.column := buffer, pos, column;
    }

    /** Advance over a character. */
    method Skip()
      modifies this
      ensures pos == old(pos) + Width(At(buffer, old(pos))) && column == old(column) + 1
    {
      column := column + 1;
      pos := pos + Width(At(buffer, pos));
    }

    /** Advance over a line break, and append it to `s` as it is kept. */
    method ReadLine(s: Bytes) returns (t: Bytes)
      requires IsBreak(buffer, pos)
      modifies this
      ensures pos == old(pos) + BreakWidth(buffer, old(pos)) && column == 0 && t == s + Normal(buffer, old(pos))
    {
      if IsCrLf(buffer, pos) {
        t := s + [LF];
        pos := pos + 2;
      } else if At(buffer, pos) == CR || At(buffer, pos) == LF {
        t := s + [LF];
        pos := pos + 1;
      } else if At(buffer, pos) == 0xC2 && At(buffer, pos + 1) == 0x85 {
        t := s + [LF];
        pos := pos + 2;
      } else {
        t := s + [At(buffer, pos), At(buffer, pos + 1), At(buffer, pos + 2)];
        pos := pos + 3;
      }
      column := 0;
    }

    method SkipLine()
      requires IsBreak(buffer, pos)
      modifies this
      ensures pos == old(pos) + BreakWidth(buffer, old(pos)) && column == 0
    {
      if IsCrLf(buffer, pos) {
        pos := pos + 2;
      } else {
        pos := pos + Width(At(buffer, pos));
      }
      column := 0;
    }

    /** The number that the next digits stand for. */
    method ReadHex(codeLength: nat) returns (value: Option<nat>)
      ensures value == HexValue(buffer, pos, codeLength)
    {
      var v := 0;
      var k := 0;
      while k < codeLength
        invariant 0 <= k <= codeLength && HexValue(buffer, pos, k) == Some(v)
      {
        if !IsHex(At(buffer, pos + k)) {
          MalformedHex(buffer, pos, k + 1, codeLength);
          return None;
        }
        v := v * 16 + AsHex(At(buffer, pos + k));
        k := k + 1;
      }
      return Some(v);
    }

    /** An escape sequence, up to its last character. */
    method ReadEscape(s: Bytes) returns (ok: bool, t: Bytes)
      requires pos < |buffer| && buffer[pos] == BACKSLASH
      modifies this
      ensures match NextEscape(buffer, old(pos) + 1)
              case None => !ok
              case Some(u) => ok && t == s + Meaning(u) && pos == old(pos) + |TextOf(u)| && column > 0
    {
      hide HexValue, Utf8, IsHex;
      t := s;
      var letter := At(buffer, pos + 1);
      var simple := Letter(letter);
      var codeLength := CodeLength(letter);
      if simple.Some? {
        t := s + simple.value;
      } else if codeLength == 0 {
        return false, s;
      }
      Skip();
      Skip();
      if simple.None? {
        var value := ReadHex(codeLength);
        if value.None? || value.value > 0x10FFFF || 0xD800 <= value.value <= 0xDFFF {
          return false, s;
        }
        HexInside(buffer, pos, codeLength);
        t := s + Utf8(value.value);
        var k := 0;
        ghost var p := pos;
        while k < codeLength
          invariant 0 <= k <= codeLength && pos == p + k && column > 0
        {
          HexIsAscii(buffer, p, codeLength, k);
          Skip();
          k := k + 1;
        }
      }
      ok := true;
    }

    /** A character or an escape. */
    method ReadCharacter(s: Bytes) returns (ok: bool, t: Bytes)
      requires !IsBlankZ(buffer, pos) && !(At(buffer, pos) == BACKSLASH && IsBreak(buffer, pos + 1))
      modifies this
      ensures match NextUnit(buffer, old(pos))
              case None => !ok
              case Some(u) => ok && t == s + Meaning(u) && pos == old(pos) + |TextOf(u)| && pos > old(pos) && column > 0
    {
      hide NextEscape, IsBreak;
      if At(buffer, pos) == BACKSLASH {
        ok, t := ReadEscape(s);
      } else {
        var w := Width(At(buffer, pos));
        if w == 0 || pos + w > |buffer| {
          return false, s;
        }
        ok, t := true, s + buffer[pos..pos + w];
        Skip();
      }
    }

    /** The scan from here on, with nothing pending behind `s`. */
    ghost function Ahead(s: Bytes): Option<(Bytes, nat)>
      reads this
    {
      Scan(buffer, pos, column == 0, Reading(s, NO_GAP))
    }

    /** Characters and escapes up to white space, a quote, an escaped line break or the end of the buffer. */
    method ReadNonBlanks(s0: Bytes, ghost target: Option<(Bytes, nat)>)
        returns (ok: bool, s: Bytes, leadingBlanks: bool)
      requires Ahead(s0) == target && !(column == 0 && IsDocumentIndicator(buffer, pos))
      modifies this
      ensures !ok ==> target.None?
      ensures ok ==> pos >= old(pos)
                     && (!IsBlankZ(buffer, old(pos)) && At(buffer, old(pos)) != QUOTE ==> pos > old(pos))
      ensures ok && leadingBlanks ==> column == 0
                                      && Scan(buffer, pos, true, Reading(s, NO_GAP.(broken := true))) == target
      ensures ok && !leadingBlanks ==>
                Ahead(s) == target && !(column == 0 && IsDocumentIndicator(buffer, pos))
                    && (IsBlankZ(buffer, pos) || At(buffer, pos) == QUOTE)
    {
      hide Scan, NextUnit, IsDocumentIndicator, TextOf, Meaning;
      ok, s, leadingBlanks := true, s0, false;
      while !IsBlankZ(buffer, pos)
        invariant ok && !leadingBlanks && pos >= old(pos) && (pos == old(pos) ==> s == s0)
        invariant Ahead(s) == target && !(column == 0 && IsDocumentIndicator(buffer, pos))
        decreases |buffer| - pos
      {
        if At(buffer, pos) == QUOTE {
          return;
        } else if At(buffer, pos) == BACKSLASH && IsBreak(buffer, pos + 1) {
          EscapedBreakIs(buffer, pos, column == 0, s);
          Skip();
          SkipLine();
          leadingBlanks := true;
          return;
        }
        CharacterIs(buffer, pos, column == 0, s);
        ok, s := ReadCharacter(s);
        if !ok {
          return;
        }
      }
    }

    /** White space and line breaks, as many as there are. */
    method ReadBlanks(escaped: bool, ghost s: Bytes, ghost target: Option<(Bytes, nat)>)
      returns (leadingBlanks: bool, whitespaces: Bytes, leadingBreak: Bytes, trailingBreaks: Bytes)
      requires Scan(buffer, pos, column == 0, Reading(s, NO_GAP.(broken := escaped))) == target
      modifies this
      ensures Scan(buffer, pos, column == 0, Reading(s, Gap(whitespaces, leadingBlanks, leadingBreak, trailingBreaks)))
              == target
      ensures !IsBlank(buffer, pos) && !IsBreak(buffer, pos) && pos >= old(pos)
              && (pos == old(pos) ==> column == old(column))
    {
      hide Scan, IsBlank, IsBreak, IsCrLf, Normal;
      leadingBlanks, whitespaces, leadingBreak, trailingBreaks := escaped, [], [], [];
      while IsBlank(buffer, pos) || IsBreak(buffer, pos)
        invariant Scan(buffer, pos, column
                       == 0, Reading(s, Gap(whitespaces, leadingBlanks, leadingBreak, trailingBreaks))) == target
        invariant pos >= old(pos) && (pos == old(pos) ==> column == old(column))
        invariant !leadingBlanks ==> leadingBreak == [] && trailingBreaks == []
        decreases |buffer| - pos
      {
        ghost var r := Reading(s, Gap(whitespaces, leadingBlanks, leadingBreak, trailingBreaks));
        if IsBlank(buffer, pos) {
          BlankIs(buffer, pos, column == 0, r);
          BlankIsAscii(buffer, pos);
          if !leadingBlanks {
            whitespaces := whitespaces + [buffer[pos]];
          }
          Skip();
        } else {
          BreakIs(buffer, pos, column == 0, r);
          if !leadingBlanks {
            whitespaces := [];
            assert leadingBreak + Normal(buffer, pos) == Normal(buffer, pos);
            leadingBreak := ReadLine(leadingBreak);
            leadingBlanks := true;
          } else {
            trailingBreaks := ReadLine(trailingBreaks);
          }
        }
      }
    }

    /** Join the white space to `s`, or fold the line breaks. */
    method Join(s: Bytes, leadingBlanks: bool, whitespaces: Bytes, leadingBreak: Bytes, trailingBreaks: Bytes)
        returns (t: Bytes)
      ensures t == Settled(Reading(s, Gap(whitespaces, leadingBlanks, leadingBreak, trailingBreaks)))
    {
      if leadingBlanks {
        if |leadingBreak| > 0 && leadingBreak[0] == LF {
          t := s + if |trailingBreaks| == 0 then [SPACE] else trailingBreaks;
        } else {
          assert s + leadingBreak + trailingBreaks == s + (leadingBreak + trailingBreaks);
          t := s + leadingBreak + trailingBreaks;
        }
      } else {
        t := s + whitespaces;
      }
    }

    /** One round: characters up to white space, and the white space; `end` is set in front of the closing quote. */
    method ScanRound(s0: Bytes, ghost target: Option<(Bytes, nat)>) returns (ok: bool, s: Bytes, end: bool)
      requires Ahead(s0) == target
      modifies this
      ensures !ok ==> target.None?
      ensures ok && end ==> At(buffer, pos) == QUOTE && target == Some((s, pos + 1))
      ensures ok && !end ==> Ahead(s) == target && old(pos) < pos && old(pos) < |buffer|
    {
      hide Scan, IsBlank, IsBreak, IsDocumentIndicator, Settled, Width;
      ok, s, end := false, s0, false;
      if column == 0 && IsDocumentIndicator(buffer, pos) {
        IndicatorFails(buffer, pos, s);
        return;
      }
      if At(buffer, pos) == 0 {
        EndFails(buffer, pos, column == 0, s);
        return;
      }
      var leadingBlanks;
      ok, s, leadingBlanks := ReadNonBlanks(s, target);
      if !ok {
        return;
      }
      if At(buffer, pos) == QUOTE {
        QuoteEnds(buffer, pos, column == 0, s, leadingBlanks);
        end := true;
        return;
      }
      var whitespaces, leadingBreak, trailingBreaks;
      leadingBlanks, whitespaces, leadingBreak, trailingBreaks := ReadBlanks(leadingBlanks, s, target);
      GapSettles(buffer, pos, column == 0, Reading(s, Gap(whitespaces, leadingBlanks, leadingBreak, trailingBreaks)));
      s := Join(s, leadingBlanks, whitespaces, leadingBreak, trailingBreaks);
    }

    /** A whole scalar; nothing if it is malformed. */
    method ScanDoubleQuoted() returns (r: Option<Bytes>)
      requires At(buffer, pos) == QUOTE
      modifies this
      ensures Scan(buffer, old(pos) + 1, false, Reading([], NO_GAP)) == if r.Some? then Some((r.value, pos)) else None
    {
      Skip();
      hide Scan;
      ghost var target := Ahead([]);
      var ok, s, end := true, [], false;
      while ok && !end
        invariant !ok ==> target.None?
        invariant ok && end ==> At(buffer, pos) == QUOTE && target == Some((s, pos + 1))
        invariant ok && !end ==> Ahead(s) == target
        decreases ok && !end, |buffer| - pos
      {
        ok, s, end := ScanRound(s, target);
      }
      if !ok {
        return None;
      }
      Skip();
      return Some(s);
    }
  }

  lemma CharacterIs(b: Bytes, i: nat, lineStart: bool, s: Bytes)
    requires !IsBlankZ(b, i) && At(b, i) != QUOTE && !(At(b, i) == BACKSLASH && IsBreak(b, i + 1))
    requires !(lineStart && IsDocumentIndicator(b, i))
    ensures match NextUnit(b, i)
            case None => Scan(b, i, lineStart, Reading(s, NO_GAP)).None?
            case Some(u) =>
              Scan(b, i, lineStart, Reading(s, NO_GAP))
              == Scan(b, i + |TextOf(u)|, false, Reading(s + Meaning(u), NO_GAP))
  {
    hide IsBreak, IsDocumentIndicator;
    assert s + [] == s;
  }

  lemma EscapedBreakIs(b: Bytes, i: nat, lineStart: bool, s: Bytes)
    requires At(b, i) == BACKSLASH && IsBreak(b, i + 1)
    ensures Scan(b, i, lineStart, Reading(s, NO_GAP))
            == Scan(b, i + 1 + BreakWidth(b, i + 1), true, Reading(s, NO_GAP.(broken := true)))
  {
    hide NextEscape, IsBlank;
    BreakInside(b, i + 1);
    assert !IsBlank(b, i) && !IsBreak(b, i) by {
      BackslashIs(b, i);
    }
    assert NextUnit(b, i) == Some(EscapedBreak(b[i + 1..i + 1 + BreakWidth(b, i + 1)]));
    assert s + [] == s;
  }

  lemma BreakInside(b: Bytes, i: nat)
    requires IsBreak(b, i)
    ensures 0 < BreakWidth(b, i) <= |b| - i
  {
  }

  lemma BackslashIs(b: Bytes, i: nat)
    requires At(b, i) == BACKSLASH
    ensures !IsBlank(b, i) && !IsBreak(b, i)
  {
  }

  lemma BlankIs(b: Bytes, i: nat, lineStart: bool, r: Reading)
    requires IsBlank(b, i)
    ensures i < |b| && Scan(b, i, lineStart, r) == Scan(b, i + 1, false, Feed(r, Blank([b[i]])))
  {
  }

  lemma BreakIs(b: Bytes, i: nat, lineStart: bool, r: Reading)
    requires IsBreak(b, i)
    ensures 0 < BreakWidth(b, i) <= |b| - i
    ensures Scan(b, i, lineStart, r)
            == Scan(b, i + BreakWidth(b, i), true, Feed(r, Break(b[i..i + BreakWidth(b, i)], Normal(b, i))))
  {
    hide NextEscape;
  }

  lemma BlankIsAscii(b: Bytes, i: nat)
    requires IsBlank(b, i)
    ensures Width(At(b, i)) == 1
  {
  }

  lemma IndicatorFails(b: Bytes, i: nat, s: Bytes)
    requires IsDocumentIndicator(b, i)
    ensures Scan(b, i, true, Reading(s, NO_GAP)).None?
  {
  }

  lemma EndFails(b: Bytes, i: nat, lineStart: bool, s: Bytes)
    requires At(b, i) == 0
    ensures Scan(b, i, lineStart, Reading(s, NO_GAP)).None?
  {
  }

  lemma QuoteEnds(b: Bytes, i: nat, lineStart: bool, s: Bytes, broken: bool)
    requires At(b, i) == QUOTE
    ensures Width(At(b, i)) == 1 && Scan(b, i, lineStart, Reading(s, NO_GAP.(broken := broken))) == Some((s, i + 1))
  {
    assert Folded(NO_GAP.(broken := broken)) == [];
    assert s + [] == s;
  }

  lemma NoGap()
    ensures Folded(NO_GAP) == []
  {
  }

  /** A gap can be settled as soon as it does not go on. */
  lemma GapSettles(b: Bytes, i: nat, lineStart: bool, r: Reading)
    requires !IsBlank(b, i) && !IsBreak(b, i)
    ensures Scan(b, i, lineStart, r) == Scan(b, i, lineStart, Reading(Settled(r), NO_GAP))
  {
    hide IsBreak, Folded, IsDocumentIndicator;
    var t := Reading(Settled(r), NO_GAP);
    assert Settled(t) == Settled(r) by {
      assert Folded(NO_GAP) == [] by {
        NoGap();
      }
    }
    match NextUnit(b, i)
    case None =>
    case Some(u) => assert Feed(t, u) == Feed(r, u);
  }

  lemma {:induction false} MalformedHex(b: Bytes, i: nat, k: nat, n: nat)
    requires k <= n && HexValue(b, i, k).None?
    ensures HexValue(b, i, n).None?
  {
    if k < n {
      MalformedHex(b, i, k, n - 1);
    }
  }

  lemma {:induction false} HexIsAscii(b: Bytes, i: nat, n: nat, k: nat)
    requires HexValue(b, i, n).Some? && k < n
    ensures IsHex(At(b, i + k)) && Width(At(b, i + k)) == 1
  {
    if k < n - 1 {
      HexIsAscii(b, i, n - 1, k);
    }
  }

  lemma HexInside(b: Bytes, i: nat, n: nat)
    requires HexValue(b, i, n).Some? && n > 0
    ensures i + n <= |b|
  {
    HexIsAscii(b, i, n, n - 1);
  }
}
