/** Scanning undoes double-quoted writing (sections 5.6 and 9.1.1 of YAML 1.1).

  The text starts with everything the writer has put and will put, the closing quote included.  The
  writer stands at `|o.text|` with `v` of the value left, and each lemma says what the scanner, standing
  at the same place in one of its loops, makes of the rest. */
module DoubleQuotes {
  import opened YamlChars
  import opened FlowScalarScanner
  import opened QuotedWriter
  import opened QuotedText

  /** What stays the same while a double-quoted scalar is written: the whole text, where the scalar ends
      in it, and the writer's settings. */
  datatype Job = Job(text: Bytes, end: nat, c: Config, bom: bool, allowBreaks: bool) {
    function Double(o: Out, v: Bytes, first: bool, spaces: bool): Bytes
      requires ValidUtf8(v)
    {
      DoubleBody(c, o, v, bom, first, spaces, allowBreaks).text
    }

    /** The text goes on with what the loop puts from here, and the closing quote. */
    ghost predicate DoubleAhead(o: Out, v: Bytes, first: bool, spaces: bool) {
      ValidUtf8(v) && Double(o, v, first, spaces) + [DQUOTE] <= text && end == |Double(o, v, first, spaces)| + 1
    }
  }

  lemma {:induction false} DoubleExtends(j: Job, o: Out, v: Bytes, first: bool, spaces: bool)
    requires ValidUtf8(v)
    ensures o.text <= j.Double(o, v, first, spaces)
    decreases |v|
  {
    if v != [] {
      var o' := DoubleTurn(j.c, o, v, j.bom, first, spaces, j.allowBreaks);
      assert o.text <= o'.text;
      DoubleExtends(j, o', v[Width(v[0])..], false, BareSpace(j, v));
    }
  }

  /** What a step of the loop puts stands in the text. */
  lemma DoubleHolds(j: Job, o: Out, s: Bytes, o': Out, v: Bytes, spaces: bool)
    requires j.DoubleAhead(o', v, false, spaces) && o'.text == o.text + s
    ensures Holds(j.text, |o.text|, s)
  {
    DoubleExtends(j, o', v, false, spaces);
    HoldsSuffix(j.text, o.text, s);
  }

  lemma DoubleEnd(j: Job, o: Out, first: bool, spaces: bool)
    requires j.DoubleAhead(o, [], first, spaces)
    ensures At(j.text, |o.text|) == DQUOTE && j.end == |o.text| + 1
  {
    HoldsSuffix(j.text, o.text, [DQUOTE]);
    assert [DQUOTE][0] == DQUOTE;
  }

  lemma DoubleEscape(j: Job, o: Out, v: Bytes, first: bool, spaces: bool)
    requires j.DoubleAhead(o, v, first, spaces) && v != [] && MustEscape(j.c, v, j.bom)
    ensures var w, n := Width(v[0]), 1 + |EscapeText(Decode(v))|;
            var o' := o.Put(BACKSLASH).PutAll(EscapeText(Decode(v)));
            && |o'.text| == |o.text| + n
            && j.DoubleAhead(o', v[w..], false, false)
            && !IsBlankz(j.text, |o.text|)
            && NextPiece(j.text, false, |o.text|) == Piece(v[..w], |o.text| + n, n)
  {
    var s := [BACKSLASH] + EscapeText(Decode(v));
    var o' := o.Put(BACKSLASH).PutAll(EscapeText(Decode(v)));
    assert o'.text == o.text + s;
    DoubleHolds(j, o, s, o', v[Width(v[0])..], false);
    EscapeRead(j.text, |o.text|, Decode(v));
    EncodeDecode(v);
  }

  /** A character other than a space that the writer puts as it is. */
  lemma DoublePlain(j: Job, o: Out, v: Bytes, first: bool, spaces: bool)
    requires j.DoubleAhead(o, v, first, spaces) && v != [] && !MustEscape(j.c, v, j.bom) && v[0] != SPACE
    ensures var w := Width(v[0]);
            && j.DoubleAhead(o.Write(v), v[w..], false, false)
            && !IsBlankz(j.text, |o.text|)
            && NextPiece(j.text, false, |o.text|) == Piece(v[..w], |o.text| + w, 1)
  {
    DoubleHolds(j, o, v[..Width(v[0])], o.Write(v), v[Width(v[0])..], false);
    PlainRead(j.text, false, |o.text|, v);
  }

  /** A space that the writer puts as it is. */
  lemma DoubleSpace(j: Job, o: Out, v: Bytes, first: bool, spaces: bool)
    requires j.DoubleAhead(o, v, first, spaces) && v != [] && !MustEscape(j.c, v, j.bom) && v[0] == SPACE
    requires !MayFold(j.c, o, v, first, spaces, j.allowBreaks)
    ensures j.DoubleAhead(o.Write(v), v[1..], false, true)
    ensures At(j.text, |o.text|) == SPACE
  {
    DoubleHolds(j, o, v[..1], o.Write(v), v[1..], true);
    SameClass(j.text, |o.text|, v);
  }

  /** Unless a bare space is put next, the text goes on with a character that is no blank, break or NUL. */
  lemma DoubleHead(j: Job, o: Out, v: Bytes, first: bool, spaces: bool)
    requires j.DoubleAhead(o, v, first, spaces)
    requires v == [] || MustEscape(j.c, v, j.bom) || v[0] != SPACE
    ensures !IsBlankz(j.text, |o.text|)
  {
    if v == [] {
      DoubleEnd(j, o, first, spaces);
    } else if MustEscape(j.c, v, j.bom) {
      DoubleEscape(j, o, v, first, spaces);
    } else {
      DoublePlain(j, o, v, first, spaces);
    }
  }

  predicate BareSpace(j: Job, v: Bytes) {
    v != [] && !MustEscape(j.c, v, j.bom) && v[0] == SPACE
  }

  /** The writer's state in the double-quoted loop: a line that was just indented holds nothing else until
      a character other than a space is put. */
  ghost predicate DoubleInv(c: Config, o: Out, spaces: bool) {
    1 <= c.indent && (o.indention ==> o.column >= c.indent && (spaces || o.column > c.indent))
  }

  /** A space folded before another character. */
  lemma DoubleFoldOne(j: Job, o: Out, v: Bytes, first: bool, spaces: bool, column: nat, s: Bytes)
    requires j.DoubleAhead(o, v, first, spaces) && DoubleInv(j.c, o, spaces)
    requires BareSpace(j, v) && !IsSpace(v, 1) && MayFold(j.c, o, v, first, spaces, j.allowBreaks)
    ensures var o' := o.WriteIndent(j.c);
            && j.DoubleAhead(o', v[1..], false, true)
            && DoubleInv(j.c, o', true)
            && Text(j.text, false, |o.text|, column, s) == Text(j.text, false, |o'.text|, j.c.indent, s + [SPACE])
  {
    var o' := o.WriteIndent(j.c);
    var chunk := BreakBytes(j.c.lineBreak) + Spaces(j.c.indent);
    FoldText(j.c, o);
    DoubleHolds(j, o, chunk, o', v[1..], true);
    DoubleHead(j, o', v[1..], false, true);
    FoldRead(j.text, false, |o.text|, j.c, column, s);
  }

  lemma FoldTwoText(j: Job, o: Out, v: Bytes, first: bool, spaces: bool)
    requires j.DoubleAhead(o, v, first, spaces) && DoubleInv(j.c, o, spaces)
    requires BareSpace(j, v) && IsSpace(v, 1) && MayFold(j.c, o, v, first, spaces, j.allowBreaks)
    ensures var o' := o.WriteIndent(j.c).Put(BACKSLASH).Write(v[1..]);
            && j.DoubleAhead(o', v[2..], false, true)
            && DoubleInv(j.c, o', true)
            && o'.text == o.text + (BreakBytes(j.c.lineBreak) + Spaces(j.c.indent) + [BACKSLASH, SPACE])
  {
    var o1 := o.WriteIndent(j.c).Put(BACKSLASH);
    FoldText(j.c, o);
    assert v[1..][1..] == v[2..];
    assert j.DoubleAhead(o1, v[1..], false, true);
    DoubleSpace(j, o1, v[1..], false, true);
  }

  /** A space folded before another space, which is then escaped. */
  lemma DoubleFoldTwo(j: Job, o: Out, v: Bytes, first: bool, spaces: bool, column: nat, s: Bytes)
    requires j.DoubleAhead(o, v, first, spaces) && DoubleInv(j.c, o, spaces)
    requires BareSpace(j, v) && IsSpace(v, 1) && MayFold(j.c, o, v, first, spaces, j.allowBreaks)
    ensures var o' := o.WriteIndent(j.c).Put(BACKSLASH).Write(v[1..]);
            && j.DoubleAhead(o', v[2..], false, true)
            && DoubleInv(j.c, o', true)
            && Text(j.text, false, |o.text|, column, s)
               == Text(j.text, false, |o'.text|, j.c.indent + 2, s + [SPACE] + [SPACE])
  {
    FoldTwoText(j, o, v, first, spaces);
    var o' := o.WriteIndent(j.c).Put(BACKSLASH).Write(v[1..]);
    DoubleHolds(j, o, BreakBytes(j.c.lineBreak) + Spaces(j.c.indent) + [BACKSLASH, SPACE], o', v[2..], true);
    FoldEscapedRead(j.text, |o.text|, j.c, column, s);
  }

  /** An escaped character, read back. */
  lemma EscapeStep(j: Job, o: Out, v: Bytes, first: bool, spaces: bool, column: nat, s: Bytes)
      returns (o': Out, column': nat)
    requires j.DoubleAhead(o, v, first, spaces) && DoubleInv(j.c, o, spaces) && 1 <= column
    requires v != [] && MustEscape(j.c, v, j.bom)
    ensures j.DoubleAhead(o', v[Width(v[0])..], false, false) && DoubleInv(j.c, o', false) && 1 <= column'
    ensures Text(j.text, false, |o.text|, column, s) == Text(j.text, false, |o'.text|, column', s + v[..Width(v[0])])
  {
    hide Text, NextPiece, DoubleBody, DoubleTurn, EscapeText, Decode, MustEscape, ValidUtf8, IsBlankz;
    var e := EscapeText(Decode(v));
    DoubleEscape(j, o, v, first, spaces);
    PieceStep(j.text, false, |o.text|, column, s);
    o', column' := o.Put(BACKSLASH).PutAll(e), column + 1 + |e|;
  }

  /** A character put as it is, read back. */
  lemma PlainStep(j: Job, o: Out, v: Bytes, first: bool, spaces: bool, column: nat, s: Bytes)
    requires j.DoubleAhead(o, v, first, spaces) && DoubleInv(j.c, o, spaces) && 1 <= column
    requires v != [] && !MustEscape(j.c, v, j.bom) && v[0] != SPACE
    ensures j.DoubleAhead(o.Write(v), v[Width(v[0])..], false, false) && DoubleInv(j.c, o.Write(v), false)
    ensures Text(j.text, false, |o.text|, column, s)
         == Text(j.text, false, |o.Write(v).text|, column + 1, s + v[..Width(v[0])])
  {
    DoublePlain(j, o, v, first, spaces);
    PieceStep(j.text, false, |o.text|, column, s);
  }

  /** A folded space, read back. */
  lemma FoldStep(j: Job, o: Out, v: Bytes, first: bool, spaces: bool, column: nat, s: Bytes)
    returns (o': Out, v': Bytes, column': nat, s': Bytes)
    requires j.DoubleAhead(o, v, first, spaces) && DoubleInv(j.c, o, spaces) && 1 <= column
    requires BareSpace(j, v) && MayFold(j.c, o, v, first, spaces, j.allowBreaks)
    ensures |v'| < |v| && s' + v' == s + v && 1 <= column'
    ensures j.DoubleAhead(o', v', false, true) && DoubleInv(j.c, o', true)
    ensures Text(j.text, false, |o.text|, column, s) == Text(j.text, false, |o'.text|, column', s')
  {
    if IsSpace(v, 1) {
      DoubleFoldTwo(j, o, v, first, spaces, column, s);
      o', v' := o.WriteIndent(j.c).Put(BACKSLASH).Write(v[1..]), v[2..];
      column', s' := j.c.indent + 2, s + [SPACE] + [SPACE];
    } else {
      DoubleFoldOne(j, o, v, first, spaces, column, s);
      o', v', column', s' := o.WriteIndent(j.c), v[1..], j.c.indent, s + [SPACE];
    }
  }

  lemma BareOrNot(j: Job, o: Out, v: Bytes, first: bool, spaces: bool, s: Bytes)
    requires j.DoubleAhead(o, v, first, spaces) && v != []
    ensures var w := Width(v[0]); 1 <= w <= |v| && s + v[..w] + v[w..] == s + v
    ensures BareSpace(j, v) <==> !MustEscape(j.c, v, j.bom) && v[0] == SPACE
  {
    hide MustEscape, DoubleBody, DoubleTurn;
    var w := Width(v[0]);
    assert v == v[..w] + v[w..];
  }

  /** One turn of the writer's loop, other than a bare space, against the scanner's turns that read it. */
  lemma DoubleStep(j: Job, o: Out, v: Bytes, first: bool, spaces: bool, column: nat, s: Bytes)
    returns (o': Out, v': Bytes, spaces': bool, column': nat, s': Bytes)
    requires j.DoubleAhead(o, v, first, spaces) && DoubleInv(j.c, o, spaces) && 1 <= column && v != []
    requires BareSpace(j, v) ==> MayFold(j.c, o, v, first, spaces, j.allowBreaks)
    ensures |v'| < |v| && s' + v' == s + v && 1 <= column'
    ensures j.DoubleAhead(o', v', false, spaces') && DoubleInv(j.c, o', spaces')
    ensures Text(j.text, false, |o.text|, column, s) == Text(j.text, false, |o'.text|, column', s')
  {
    BareOrNot(j, o, v, first, spaces, s);
    hide *;
    if BareSpace(j, v) {
      spaces' := true;
      o', v', column', s' := FoldStep(j, o, v, first, spaces, column, s);
    } else {
      var w := Width(v[0]);
      v', spaces', s' := v[w..], false, s + v[..w];
      if MustEscape(j.c, v, j.bom) {
        o', column' := EscapeStep(j, o, v, first, spaces, column, s);
      } else {
        PlainStep(j, o, v, first, spaces, column, s);
        o', column' := o.Write(v), column + 1;
      }
    }
  }

  /** The scanner in its loop over non-blank characters reads the rest of the value. */
  lemma {:induction false} DoubleText(j: Job, o: Out, v: Bytes, first: bool, spaces: bool, column: nat, s: Bytes)
    requires j.DoubleAhead(o, v, first, spaces) && DoubleInv(j.c, o, spaces) && 1 <= column
    ensures Text(j.text, false, |o.text|, column, s) == Scanned(s + v, j.end)
    decreases |v|, 1
  {
    if v == [] {
      DoubleEnd(j, o, first, spaces);
      assert s + v == s;
    } else if BareSpace(j, v) && !MayFold(j.c, o, v, first, spaces, j.allowBreaks) {
      DoubleSpace(j, o, v, first, spaces);
      DoubleGap(j, o, v, first, spaces, column, s, []);
      assert s + [] == s;
    } else {
      var o', v', spaces', column', s' := DoubleStep(j, o, v, first, spaces, column, s);
      DoubleText(j, o', v', false, spaces', column', s');
    }
  }

  /** The scanner in its loop over blanks, with `blanks` pending, reads the rest of the value. */
  lemma {:induction false} DoubleGap(j: Job, o: Out, v: Bytes, first: bool, spaces: bool, column: nat, s: Bytes,
      blanks: Bytes)
    requires j.DoubleAhead(o, v, first, spaces) && DoubleInv(j.c, o, spaces) && 1 <= column
    requires BareSpace(j, v) ==> !MayFold(j.c, o, v, first, spaces, j.allowBreaks)
    ensures Gap(j.text, false, |o.text|, column, s, [], [], blanks, false) == Scanned(s + blanks + v, j.end)
    decreases |v|, if BareSpace(j, v) then 0 else 2
  {
    if BareSpace(j, v) {
      DoubleSpace(j, o, v, first, spaces);
      DoubleGap(j, o.Write(v), v[1..], false, true, column + 1, s, blanks + [SPACE]);
      assert s + (blanks + [SPACE]) + v[1..] == s + blanks + v;
    } else {
      DoubleHead(j, o, v, first, spaces);
      DoubleText(j, o, v, first, spaces, column, s + blanks);
    }
  }

  /** The opening quote stands in the text, and the loop starts after it. */
  lemma DoubleOpens(c: Config, o: Out, v: Bytes, allowBreaks: bool, text: Bytes)
    requires ValidUtf8(v) && 1 <= c.indent && DoubleQuoted(c, o, v, allowBreaks).text <= text
    ensures var pos, o1 := |o.text| + if o.whitespace then 0 else 1, o.WriteIndicator([DQUOTE], true, false, false);
            var j := Job(text, |DoubleQuoted(c, o, v, allowBreaks).text|, c, IsBom(v), allowBreaks);
            && At(text, pos) == DQUOTE == Quote(false) && |o1.text| == pos + 1
            && j.DoubleAhead(o1, v, true, false) && DoubleInv(c, o1, false)
  {
    var o1 := o.WriteIndicator([DQUOTE], true, false, false);
    var out := DoubleQuoted(c, o, v, allowBreaks).text;
    var j := Job(text, |out|, c, IsBom(v), allowBreaks);
    hide DoubleBody, ValidUtf8, IsBom;
    assert out == j.Double(o1, v, true, false) + [DQUOTE];
    DoubleExtends(j, o1, v, true, false);
    assert o1.text <= text && o1.text[|o1.text| - 1] == DQUOTE;
  }

  /** No NUL comes next. */
  lemma DoubleNotNul(j: Job, o: Out, v: Bytes)
    requires j.DoubleAhead(o, v, true, false)
    ensures !IsZ(j.text, |o.text|)
  {
    if BareSpace(j, v) {
      DoubleSpace(j, o, v, true, false);
    } else {
      DoubleHead(j, o, v, true, false);
    }
  }

  lemma ScanStarts(text: Bytes, single: bool, pos: nat, column: nat)
    requires At(text, pos) == Quote(single) && !IsZ(text, pos + 1)
    ensures ScanQuoted(text, single, pos, column) == Text(text, single, pos + 1, column + 1, [])
  {
    LinesStep(text, single, pos + 1, column + 1, []);
  }

  /** For every valid UTF-8 value, however it is folded, scanning what the double-quoted writer puts
      returns that value and stops right after the closing quote. */
  lemma DoubleQuotedRoundTrip(c: Config, o: Out, v: Bytes, allowBreaks: bool, text: Bytes, column: nat)
    requires ValidUtf8(v) && 1 <= c.indent
    requires DoubleQuoted(c, o, v, allowBreaks).text <= text
    ensures var pos := |o.text| + if o.whitespace then 0 else 1;
            && At(text, pos) == DQUOTE
            && ScanQuoted(text, false, pos, column) == Scanned(v, |DoubleQuoted(c, o, v, allowBreaks).text|)
  {
    hide *;
    var pos, o1 := |o.text| + if o.whitespace then 0 else 1, o.WriteIndicator([DQUOTE], true, false, false);
    var j := Job(text, |DoubleQuoted(c, o, v, allowBreaks).text|, c, IsBom(v), allowBreaks);
    DoubleOpens(c, o, v, allowBreaks, text);
    DoubleText(j, o1, v, true, false, column + 1, []);
    DoubleNotNul(j, o1, v);
    ScanStarts(text, false, pos, column);
    assert [] + v == v;
  }
}
