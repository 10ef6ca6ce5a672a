/** What the scanner of quoted scalars makes of the pieces the writers put: escape sequences, characters
  put as they are, line breaks and indentation. */
module QuotedText {
  import opened YamlChars
  import opened FlowScalarScanner
  import opened QuotedWriter

  ghost predicate Holds(text: Bytes, pos: nat, s: Bytes) {
    pos + |s| <= |text| && forall i {:trigger s[i]} | 0 <= i < |s| :: text[pos + i] == s[i]
  }

  lemma HoldsSuffix(text: Bytes, before: Bytes, s: Bytes)
    requires before + s <= text
    ensures Holds(text, |before|, s)
  {
    forall i | 0 <= i < |s| ensures text[|before| + i] == s[i] {
      assert (before + s)[|before| + i] == s[i];
    }
  }

  lemma HoldsParts(text: Bytes, pos: nat, a: Bytes, b: Bytes)
    requires Holds(text, pos, a + b)
    ensures Holds(text, pos, a) && Holds(text, pos + |a|, b)
  {
    assert forall i | 0 <= i < |a| :: a[i] == (a + b)[i];
    forall i | 0 <= i < |b| ensures text[pos + |a| + i] == b[i] {
      assert (a + b)[|a| + i] == b[i];
    }
  }

  lemma HoldsTail(text: Bytes, pos: nat, s: Bytes)
    requires Holds(text, pos, s) && s != []
    ensures text[pos] == s[0] && Holds(text, pos + 1, s[1..])
  {
    assert s == s[..1] + s[1..];
    HoldsParts(text, pos, s[..1], s[1..]);
  }

  // Escape sequences

  function Pow16(n: nat): nat {
    if n == 0 then 1 else 0x10 * Pow16(n - 1)
  }

  lemma {:induction false} HexValueOfHexText(text: Bytes, pos: nat, v: nat, n: nat)
    requires Holds(text, pos, HexText(v, n)) && v < Pow16(n)
    ensures HexValue(text, pos, n) == v
  {
    if n > 0 {
      var high := HexText(v / 0x10, n - 1);
      assert forall i | 0 <= i < n - 1 :: high[i] == HexText(v, n)[i];
      HexValueOfHexText(text, pos, v / 0x10, n - 1);
      assert HexText(v, n)[n - 1] == HexDigit(v % 0x10);
    }
  }

  lemma HexRead(text: Bytes, pos: nat, v: nat)
    requires IsScalarValue(v) && Holds(text, pos, EscapeText(v)) && EscapeOf(EscapeText(v)[0]).Code?
    ensures HexValue(text, pos + 1, EscapeOf(EscapeText(v)[0]).digits) == v
  {
    var n := EscapeOf(EscapeText(v)[0]).digits;
    assert Pow16(2) == 0x100 && Pow16(4) == 0x10000 && Pow16(8) == 0x1_0000_0000;
    HoldsTail(text, pos, EscapeText(v));
    assert EscapeText(v)[1..] == HexText(v, n);
    HexValueOfHexText(text, pos + 1, v, n);
  }

  /** The letters the writer uses stand for the code points it uses them for. */
  lemma LetterStandsFor(v: nat)
    requires IsScalarValue(v)
    ensures var e := EscapeText(v);
            && e != [] && e[0] < 0x80 && e[0] != CR && e[0] != LF
            && (EscapeOf(e[0]).Code? || (|e| == 1 && EscapeOf(e[0]) == Literal(Encode(v))))
            && (EscapeOf(e[0]).Code? ==> |e| == 1 + EscapeOf(e[0]).digits)
  {
  }

  /** A backslash and a letter that is no line break are read as an escape sequence. */
  lemma SequenceRead(text: Bytes, pos: nat, t: Bytes, next: nat)
    requires At(text, pos) == BACKSLASH && !IsBreak(text, pos + 1) && ScanEscape(text, pos) == Scanned(t, next)
    ensures !IsBlankz(text, pos)
    ensures NextPiece(text, false, pos) == Piece(t, next, next - pos)
  {
    hide ScanEscape;
  }

  lemma EscapeScanned(text: Bytes, pos: nat, v: nat)
    requires IsScalarValue(v) && At(text, pos) == BACKSLASH && Holds(text, pos + 1, EscapeText(v))
    ensures ScanEscape(text, pos) == Scanned(Encode(v), pos + 1 + |EscapeText(v)|)
  {
    hide EscapeText, EscapeOf, HexValue, Encode;
    LetterStandsFor(v);
    HoldsTail(text, pos + 1, EscapeText(v));
    if EscapeOf(EscapeText(v)[0]).Code? {
      HexRead(text, pos + 1, v);
    }
  }

  /** The scanner reads the escape sequence of a code point as that code point. */
  lemma EscapeRead(text: Bytes, pos: nat, v: nat)
    requires IsScalarValue(v) && Holds(text, pos, [BACKSLASH] + EscapeText(v))
    ensures !IsBlankz(text, pos)
    ensures var n := 1 + |EscapeText(v)|; NextPiece(text, false, pos) == Piece(Encode(v), pos + n, n)
  {
    hide EscapeText, EscapeOf, Encode, ScanEscape, NextPiece, IsBlankz;
    var e := EscapeText(v);
    LetterStandsFor(v);
    HoldsParts(text, pos, [BACKSLASH], e);
    HoldsTail(text, pos, [BACKSLASH]);
    HoldsTail(text, pos + 1, e);
    assert !IsBreak(text, pos + 1);
    EscapeScanned(text, pos, v);
    SequenceRead(text, pos, Encode(v), pos + 1 + |e|);
  }

  // Characters put as they are

  /** Whether two texts start alike makes no difference to what character they start with. */
  lemma SameClass(text: Bytes, pos: nat, v: Bytes)
    requires StartsWithChar(v) && Holds(text, pos, v[..Width(v[0])])
    ensures text[pos] == v[0]
    ensures IsBreak(text, pos) <==> IsBreak(v, 0)
    ensures IsBlank(text, pos) <==> IsBlank(v, 0)
    ensures IsZ(text, pos) <==> IsZ(v, 0)
  {
    var w := Width(v[0]);
    assert forall i | 0 <= i < w :: text[pos + i] == v[..w][i];
  }

  lemma PlainRead(text: Bytes, single: bool, pos: nat, v: Bytes)
    requires StartsWithChar(v) && Holds(text, pos, v[..Width(v[0])])
    requires !IsBlankz(v, 0) && v[0] != Quote(single) && (single || v[0] != BACKSLASH)
    ensures !IsBlankz(text, pos)
    ensures NextPiece(text, single, pos) == Piece(v[..Width(v[0])], pos + Width(v[0]), 1)
  {
    SameClass(text, pos, v);
    assert text[pos..pos + Width(v[0])] == v[..Width(v[0])];
  }

  // Line breaks and indentation

  lemma BreakRead(text: Bytes, pos: nat, b: LineBreak)
    requires Holds(text, pos, BreakBytes(b))
    requires b == CrBreak ==> At(text, pos + 1) != LF
    ensures IsBreak(text, pos)
    ensures BreakWidth(text, pos) == |BreakBytes(b)| && BreakText(text, pos) == [LF]
  {
    assert text[pos] == BreakBytes(b)[0];
    assert b == CrlnBreak ==> text[pos + 1] == BreakBytes(b)[1];
  }

  /** Indentation after a break is skipped. */
  lemma {:induction false} IndentRead(text: Bytes, single: bool, pos: nat, n: nat, column: nat, s: Bytes,
      lead: Bytes, trail: Bytes)
    requires Holds(text, pos, Spaces(n)) && !IsBlank(text, pos + n) && !IsBreak(text, pos + n)
    ensures Gap(text, single, pos, column, s, lead, trail, [], true)
         == Lines(text, single, pos + n, column + n, s + Fold(lead, trail))
    decreases n
  {
    if n > 0 {
      HoldsTail(text, pos, Spaces(n));
      assert Spaces(n)[1..] == Spaces(n - 1);
      IndentRead(text, single, pos + 1, n - 1, column + 1, s, lead, trail);
    }
  }

  /** The first line break of a gap. */
  lemma BreakStep(text: Bytes, single: bool, pos: nat, column: nat, s: Bytes, b: LineBreak)
    requires Holds(text, pos, BreakBytes(b))
    requires b == CrBreak ==> At(text, pos + 1) != LF
    ensures Text(text, single, pos, column, s) == Gap(text, single, pos + |BreakBytes(b)|, 0, s, [LF], [], [], true)
  {
    BreakRead(text, pos, b);
    assert [] + [LF] == [LF];
  }

  /** The break and indentation put for a folded space are read as that space. */
  lemma FoldRead(text: Bytes, single: bool, pos: nat, c: Config, column: nat, s: Bytes)
    requires 1 <= c.indent
    requires Holds(text, pos, BreakBytes(c.lineBreak) + Spaces(c.indent))
    requires var next := pos + |BreakBytes(c.lineBreak)| + c.indent; !IsBlankz(text, next)
    ensures var next := pos + |BreakBytes(c.lineBreak)| + c.indent;
            Text(text, single, pos, column, s) == Text(text, single, next, c.indent, s + [SPACE])
  {
    var b, pad := BreakBytes(c.lineBreak), Spaces(c.indent);
    HoldsParts(text, pos, b, pad);
    HoldsTail(text, pos + |b|, pad);
    BreakStep(text, single, pos, column, s, c.lineBreak);
    IndentRead(text, single, pos + |b|, c.indent, 0, s, [LF], []);
    LinesStep(text, single, pos + |b| + c.indent, c.indent, s + [SPACE]);
  }

  /** Where a space is folded, a break is put even if the line is already indented. */
  ghost predicate Breaks(c: Config, o: Out) {
    o.indention ==> o.column > c.indent
  }

  lemma FoldText(c: Config, o: Out)
    requires 1 <= c.indent && Breaks(c, o)
    ensures o.WriteIndent(c).text == o.text + (BreakBytes(c.lineBreak) + Spaces(c.indent))
    ensures o.WriteIndent(c).column == c.indent
  {
  }

  /** A line that goes on with a character at a column past the first. */
  lemma LinesStep(text: Bytes, single: bool, pos: nat, column: nat, s: Bytes)
    requires 1 <= column && !IsZ(text, pos)
    ensures Lines(text, single, pos, column, s) == Text(text, single, pos, column, s)
  {
  }

  /** One turn of the scanner's loop over non-blank characters. */
  lemma PieceStep(text: Bytes, single: bool, pos: nat, column: nat, s: Bytes)
    requires !IsBlankz(text, pos) && NextPiece(text, single, pos).Piece?
    ensures var p := NextPiece(text, single, pos);
            Text(text, single, pos, column, s) == Text(text, single, p.next, column + p.columns, s + p.text)
  {
  }

  /** The same, with the escaped space put when another space follows. */
  lemma FoldEscapedRead(text: Bytes, pos: nat, c: Config, column: nat, s: Bytes)
    requires 1 <= c.indent
    requires Holds(text, pos, BreakBytes(c.lineBreak) + Spaces(c.indent) + [BACKSLASH, SPACE])
    ensures var next := pos + |BreakBytes(c.lineBreak)| + c.indent;
            Text(text, false, pos, column, s) == Text(text, false, next + 2, c.indent + 2, s + [SPACE] + [SPACE])
  {
    var chunk := BreakBytes(c.lineBreak) + Spaces(c.indent);
    var next := pos + |chunk|;
    HoldsParts(text, pos, chunk, [BACKSLASH, SPACE]);
    HoldsTail(text, next, [BACKSLASH, SPACE]);
    HoldsTail(text, next + 1, [SPACE]);
    FoldRead(text, false, pos, c, column, s);
    PieceStep(text, false, next, c.indent, s + [SPACE]);
  }
}
