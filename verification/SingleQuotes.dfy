/** Scanning undoes single-quoted writing, for every value `yaml_emitter_analyze_scalar` allows in that
  style (section 9.1.2 of YAML 1.1).

  As for the double-quoted style, the text starts with everything the writer has put and will put, and
  each lemma says what the scanner makes of it from where the writer stands. */
module SingleQuotes {
  import opened YamlChars
  import opened FlowScalarScanner
  import opened QuotedWriter
  import opened QuotedText
  import opened DoubleQuotes

  /** What stays the same while a single-quoted scalar is written. */
  datatype Task = Task(text: Bytes, end: nat, c: Config, allowBreaks: bool) {
    function Single(o: Out, v: Bytes, first: bool, spaces: bool, breaks: bool): Bytes
      requires ValidUtf8(v)
    {
      SingleBody(c, o, v, first, spaces, breaks, allowBreaks).text
    }

    /** Nothing in the value bars the single-quoted style, given what comes before `v`. */
    ghost predicate Allowed(v: Bytes, spaces: bool, breaks: bool)
      requires ValidUtf8(v)
    {
      Analyze(c.unicode, v, spaces, breaks, Analysis(false, false, false, false)).SingleQuotedAllowed()
    }

    /** The text goes on with what the loop puts from here, the closing quote, and no further quote. */
    ghost predicate Ahead(o: Out, v: Bytes, first: bool, spaces: bool, breaks: bool) {
      && ValidUtf8(v)
      && Single(o, v, first, spaces, breaks) + [SQUOTE] <= text
      && end == |Single(o, v, first, spaces, breaks)| + 1
      && At(text, end) != SQUOTE
      && Allowed(v, spaces, breaks)
      && 1 <= c.indent
    }
  }

  // Analysis

  /** What bars the style is never forgotten, and what is not about that does not matter. */
  lemma {:induction false} AnalysisGrows(unicode: bool, v: Bytes, spaces: bool, breaks: bool, a: Analysis)
    requires ValidUtf8(v)
    ensures var none := Analysis(false, false, false, false);
            Analyze(unicode, v, spaces, breaks, a).SingleQuotedAllowed()
            <==> a.SingleQuotedAllowed() && Analyze(unicode, v, spaces, breaks, none).SingleQuotedAllowed()
    decreases |v|
  {
    if v != [] {
      var none := Analysis(false, false, false, false);
      var bad := !IsPrintable(v, 0) || (!IsAscii(v, 0) && !unicode);
      var rest := v[Width(v[0])..];
      if v[0] == SPACE {
        AnalysisGrows(unicode, rest, true, false, a.(special := a.special || bad,
          breakSpace := a.breakSpace || breaks));
        AnalysisGrows(unicode, rest, true, false, none.(special := bad, breakSpace := breaks));
      } else if IsBreak(v, 0) {
        var a' := a.(special := a.special || bad, multiline := true, spaceBreak := a.spaceBreak || spaces);
        AnalysisGrows(unicode, rest, false, true, a');
        AnalysisGrows(unicode, rest, false, true, none.(special := bad, multiline := true, spaceBreak := spaces));
      } else {
        AnalysisGrows(unicode, rest, false, false, a.(special := a.special || bad));
        AnalysisGrows(unicode, rest, false, false, none.(special := bad));
      }
    }
  }

  /** The style is allowed exactly when the first character does not bar it and the rest does not. */
  lemma AllowedStep(t: Task, v: Bytes, spaces: bool, breaks: bool)
    requires ValidUtf8(v) && v != []
    ensures t.Allowed(v, spaces, breaks) <==>
            && IsPrintable(v, 0)
            && (IsAscii(v, 0) || t.c.unicode)
            && (v[0] == SPACE ==> !breaks)
            && (IsBreak(v, 0) ==> !spaces)
            && t.Allowed(v[Width(v[0])..], v[0] == SPACE, IsBreak(v, 0))
  {
    var none := Analysis(false, false, false, false);
    var bad := !IsPrintable(v, 0) || (!IsAscii(v, 0) && !t.c.unicode);
    var rest := v[Width(v[0])..];
    AnalysisGrows(t.c.unicode, rest, v[0] == SPACE, IsBreak(v, 0),
                  Analysis(IsBreak(v, 0), bad, v[0] == SPACE && breaks, IsBreak(v, 0) && spaces));
    AnalysisGrows(t.c.unicode, rest, v[0] == SPACE, IsBreak(v, 0), none);
  }

  // The writer

  lemma TurnGrows(t: Task, o: Out, v: Bytes, first: bool, spaces: bool, breaks: bool)
    requires v != [] && StartsWithChar(v)
    ensures o.text <= SingleTurn(t.c, o, v, first, spaces, breaks, t.allowBreaks).text
  {
  }

  lemma {:induction false} SingleExtends(t: Task, o: Out, v: Bytes, first: bool, spaces: bool, breaks: bool)
    requires ValidUtf8(v)
    ensures o.text <= t.Single(o, v, first, spaces, breaks)
    decreases |v|
  {
    if v != [] {
      var o' := SingleTurn(t.c, o, v, first, spaces, breaks, t.allowBreaks);
      TurnGrows(t, o, v, first, spaces, breaks);
      SingleExtends(t, o', v[Width(v[0])..], false, v[0] == SPACE || (spaces && IsBreak(v, 0)),
                    IsBreak(v, 0) || (breaks && v[0] == SPACE));
    }
  }

  /** What a step of the loop puts stands in the text. */
  lemma SingleHolds(t: Task, o: Out, s: Bytes, o': Out, v: Bytes, spaces: bool, breaks: bool)
    requires t.Ahead(o', v, false, spaces, breaks) && o'.text == o.text + s
    ensures Holds(t.text, |o.text|, s)
  {
    SingleExtends(t, o', v, false, spaces, breaks);
    HoldsSuffix(t.text, o.text, s);
  }

  lemma SingleEnd(t: Task, o: Out, first: bool, spaces: bool, breaks: bool)
    requires t.Ahead(o, [], first, spaces, breaks)
    ensures At(t.text, |o.text|) == SQUOTE && t.end == |o.text| + 1
  {
    HoldsSuffix(t.text, o.text, [SQUOTE]);
    assert [SQUOTE][0] == SQUOTE;
  }

  /** A quote of the value, doubled by the writer, or any other character, read back. */
  lemma CharRead(t: Task, o: Out, v: Bytes, first: bool, spaces: bool)
    requires t.Ahead(o, v, first, spaces, false) && v != [] && v[0] != SPACE && !IsBreak(v, 0)
    ensures var o', w := PutChar(o, v), Width(v[0]);
            && t.Ahead(o', v[w..], false, false, false)
            && !IsBlankz(t.text, |o.text|)
            && NextPiece(t.text, true, |o.text|)
               == if v[0] == SQUOTE then Piece([SQUOTE], |o'.text|, 2) else Piece(v[..w], |o'.text|, 1)
  {
    AllowedStep(t, v, spaces, false);
    var w := Width(v[0]);
    var o' := PutChar(o, v);
    if v[0] == SQUOTE {
      assert o'.text == o.text + [SQUOTE, SQUOTE];
      SingleHolds(t, o, [SQUOTE, SQUOTE], o', v[1..], false, false);
      HoldsTail(t.text, |o.text|, [SQUOTE, SQUOTE]);
      HoldsTail(t.text, |o.text| + 1, [SQUOTE]);
    } else {
      SingleHolds(t, o, v[..w], o', v[w..], false, false);
      PlainRead(t.text, true, |o.text|, v);
    }
  }

  lemma CharStep(t: Task, o: Out, v: Bytes, first: bool, spaces: bool, column: nat, s: Bytes) returns (column': nat)
    requires t.Ahead(o, v, first, spaces, false) && v != [] && v[0] != SPACE && !IsBreak(v, 0) && 1 <= column
    ensures var o' := PutChar(o, v);
            && 1 <= column'
            && t.Ahead(o', v[Width(v[0])..], false, false, false)
            && !IsBlankz(t.text, |o.text|)
            && Text(t.text, true, |o.text|, column, s) == Text(t.text, true, |o'.text|, column', s + v[..Width(v[0])])
  {
    CharRead(t, o, v, first, spaces);
    PieceStep(t.text, true, |o.text|, column, s);
    column' := column + if v[0] == SQUOTE then 2 else 1;
    assert v[0] == SQUOTE ==> v[..1] == [SQUOTE];
  }

  /** Whether the writer folds the space at the start of `v`. */
  predicate Folds(t: Task, o: Out, v: Bytes, first: bool, spaces: bool) {
    MayFold(t.c, o, v, first, spaces, t.allowBreaks) && !IsSpace(v, 1)
  }

  /** A space that the writer puts as it is. */
  lemma SpaceStep(t: Task, o: Out, v: Bytes, first: bool, spaces: bool)
    requires t.Ahead(o, v, first, spaces, false) && v != [] && v[0] == SPACE && !Folds(t, o, v, first, spaces)
    ensures t.Ahead(o.Write(v), v[1..], false, true, false)
    ensures At(t.text, |o.text|) == SPACE
  {
    AllowedStep(t, v, spaces, false);
    SingleHolds(t, o, v[..1], o.Write(v), v[1..], true, false);
    SameClass(t.text, |o.text|, v);
  }

  /** Unless a bare space or a break is put next, the text goes on with a character that is no blank, break
      or NUL. */
  lemma SingleHead(t: Task, o: Out, v: Bytes, first: bool, spaces: bool)
    requires t.Ahead(o, v, first, spaces, false)
    requires v == [] || (v[0] != SPACE && !IsBreak(v, 0))
    ensures !IsBlankz(t.text, |o.text|)
  {
    if v == [] {
      SingleEnd(t, o, first, spaces, false);
    } else {
      var _ := CharStep(t, o, v, first, spaces, 1, []);
    }
  }

  /** A space folded into a line break. */
  lemma SingleFoldStep(t: Task, o: Out, v: Bytes, first: bool, spaces: bool, column: nat, s: Bytes)
    requires t.Ahead(o, v, first, spaces, false) && v != [] && v[0] == SPACE && Folds(t, o, v, first, spaces)
    requires !o.indention
    ensures var o' := o.WriteIndent(t.c);
            && t.Ahead(o', v[1..], false, true, false)
            && Text(t.text, true, |o.text|, column, s) == Text(t.text, true, |o'.text|, t.c.indent, s + [SPACE])
  {
    var o' := o.WriteIndent(t.c);
    var chunk := BreakBytes(t.c.lineBreak) + Spaces(t.c.indent);
    AllowedStep(t, v, spaces, false);
    AllowedStep(t, v[1..], true, false);
    FoldText(t.c, o);
    SingleHolds(t, o, chunk, o', v[1..], true, false);
    SingleHead(t, o', v[1..], false, true);
    FoldRead(t.text, true, |o.text|, t.c, column, s);
  }

  /** Only right after a line break is a line already indented. */
  ghost predicate SingleInv(o: Out, v: Bytes, first: bool, spaces: bool) {
    v != [] && v[0] == SPACE && !first && !spaces ==> !o.indention
  }

  // Runs of breaks

  /** No LF comes after a run of breaks begun in the style of a lone CR. */
  lemma AfterBreak(t: Task, o: Out, v: Bytes)
    requires t.Ahead(o, v, false, false, true) && o.column == 0 && o.indention && t.c.lineBreak == CrBreak
    ensures At(t.text, |o.text|) != LF
  {
    if v == [] {
      SingleEnd(t, o, false, false, true);
    } else {
      AllowedStep(t, v, false, true);
      if IsBreak(v, 0) {
        var o' := PutNextBreak(t.c, o, v);
        var chunk := if v[0] == LF then [CR] else v[..3];
        SingleHolds(t, o, chunk, o', v[Width(v[0])..], false, true);
        HoldsTail(t.text, |o.text|, chunk);
      } else {
        IndentAhead(t, o, v);
        SingleExtends(t, o.WriteIndent(t.c), v, false, false, false);
        HoldsSuffix(t.text, o.text, Spaces(t.c.indent));
        HoldsTail(t.text, |o.text|, Spaces(t.c.indent));
      }
    }
  }

  /** After a run of breaks the writer indents the line and goes on as it does within a line. */
  lemma IndentAhead(t: Task, o: Out, v: Bytes)
    requires t.Ahead(o, v, false, false, true) && o.column == 0 && o.indention
    requires v != [] && v[0] != SPACE && !IsBreak(v, 0)
    ensures t.Ahead(o.WriteIndent(t.c), v, false, false, false)
    ensures o.WriteIndent(t.c).text == o.text + Spaces(t.c.indent)
  {
    AllowedStep(t, v, false, true);
    AllowedStep(t, v, false, false);
  }

  /** The scanner's turn for a break within a run. */
  lemma GapBreak(text: Bytes, pos: nat, s: Bytes, lead: Bytes, trail: Bytes)
    requires IsBreak(text, pos)
    ensures Gap(text, true, pos, 0, s, lead, trail, [], true)
         == Gap(text, true, pos + BreakWidth(text, pos), 0, s, lead, trail + BreakText(text, pos), [], true)
  {
  }

  /** A break within a run stands in the text. */
  lemma NextBreakHolds(t: Task, o: Out, v: Bytes)
    requires t.Ahead(o, v, false, false, true) && o.column == 0 && o.indention && v != [] && IsBreak(v, 0)
    ensures var o' := PutNextBreak(t.c, o, v);
            && t.Ahead(o', v[Width(v[0])..], false, false, true) && IsBreak(t.text, |o.text|)
            && |o'.text| == |o.text| + BreakWidth(t.text, |o.text|)
            && BreakText(t.text, |o.text|) == v[..Width(v[0])]
  {
    hide Analyze;
    AllowedStep(t, v, false, true);
    var o' := PutNextBreak(t.c, o, v);
    var rest := v[Width(v[0])..];
    if v[0] == LF {
      SingleHolds(t, o, BreakBytes(t.c.lineBreak), o', rest, false, true);
      if t.c.lineBreak == CrBreak {
        AfterBreak(t, o', rest);
      }
      BreakRead(t.text, |o.text|, t.c.lineBreak);
      assert v[..1] == [LF];
    } else {
      SeparatorRead(t, o, v);
    }
  }

  /** A break within a run, read back. */
  lemma NextBreakRead(t: Task, o: Out, v: Bytes, s: Bytes, lead: Bytes, trail: Bytes)
    requires t.Ahead(o, v, false, false, true) && o.column == 0 && o.indention && v != [] && IsBreak(v, 0)
    ensures var o' := PutNextBreak(t.c, o, v);
            && t.Ahead(o', v[Width(v[0])..], false, false, true)
            && Gap(t.text, true, |o.text|, 0, s, lead, trail, [], true)
               == Gap(t.text, true, |o'.text|, 0, s, lead, trail + v[..Width(v[0])], [], true)
  {
    NextBreakHolds(t, o, v);
    hide *;
    GapBreak(t.text, |o.text|, s, lead, trail);
  }

  /** LS and PS are put and read as they are. */
  lemma SeparatorRead(t: Task, o: Out, v: Bytes)
    requires v != [] && StartsWithChar(v) && t.Ahead(PutNextBreak(t.c, o, v), v[Width(v[0])..], false, false, true)
    requires IsBreak(v, 0) && v[0] != LF && IsPrintable(v, 0)
    ensures IsBreak(t.text, |o.text|) && BreakWidth(t.text, |o.text|) == 3 == Width(v[0])
    ensures BreakText(t.text, |o.text|) == v[..3]
  {
    SingleHolds(t, o, v[..3], PutNextBreak(t.c, o, v), v[3..], false, true);
    SameClass(t.text, |o.text|, v);
    assert t.text[|o.text|..|o.text| + 3] == v[..3];
  }

  /** The indentation after a run of breaks, read back. */
  lemma IndentStep(t: Task, o: Out, v: Bytes, s: Bytes, lead: Bytes, trail: Bytes)
    requires t.Ahead(o, v, false, false, true) && o.column == 0 && o.indention
    requires v != [] && v[0] != SPACE && !IsBreak(v, 0)
    ensures var o' := o.WriteIndent(t.c);
            && t.Ahead(o', v, false, false, false)
            && Gap(t.text, true, |o.text|, 0, s, lead, trail, [], true)
               == Text(t.text, true, |o'.text|, t.c.indent, s + Fold(lead, trail))
  {
    hide Gap, Text, Lines, Fold, SingleBody, SingleTurn;
    var o' := o.WriteIndent(t.c);
    IndentAhead(t, o, v);
    SingleHead(t, o', v, false, false);
    SingleExtends(t, o', v, false, false, false);
    HoldsSuffix(t.text, o.text, Spaces(t.c.indent));
    IndentRead(t.text, true, |o.text|, t.c.indent, 0, s, lead, trail);
    LinesStep(t.text, true, |o'.text|, t.c.indent, s + Fold(lead, trail));
  }

  /** The closing quote right after a run of breaks, read back. */
  lemma EndAfterBreaks(t: Task, o: Out, s: Bytes, lead: Bytes, trail: Bytes)
    requires t.Ahead(o, [], false, false, true)
    ensures Gap(t.text, true, |o.text|, 0, s, lead, trail, [], true) == Scanned(s + Fold(lead, trail), t.end)
  {
    SingleEnd(t, o, false, false, true);
    var s' := s + Fold(lead, trail);
    assert Gap(t.text, true, |o.text|, 0, s, lead, trail, [], true) == Lines(t.text, true, |o.text|, 0, s');
    assert Lines(t.text, true, |o.text|, 0, s') == Text(t.text, true, |o.text|, 0, s');
  }

  lemma FoldMore(s: Bytes, lead: Bytes, trail: Bytes, v: Bytes, w: nat)
    requires w <= |v| && lead != [] && (lead[0] == LF ==> trail != [])
    ensures s + Fold(lead, trail + v[..w]) + v[w..] == s + Fold(lead, trail) + v
  {
    var f := Fold(lead, trail);
    assert lead + (trail + v[..w]) == lead + trail + v[..w];
    assert s + (f + v[..w]) + v[w..] == s + f + (v[..w] + v[w..]);
    assert v[..w] + v[w..] == v;
  }

  /** The scanner within a run of breaks reads the rest of the value. */
  lemma {:induction false} SingleBreaks(t: Task, o: Out, v: Bytes, s: Bytes, lead: Bytes, trail: Bytes)
    requires t.Ahead(o, v, false, false, true) && o.column == 0 && o.indention
    requires lead != [] && (lead[0] == LF ==> trail != [])
    ensures Gap(t.text, true, |o.text|, 0, s, lead, trail, [], true) == Scanned(s + Fold(lead, trail) + v, t.end)
    decreases |v|, 2
  {
    if v == [] {
      EndAfterBreaks(t, o, s, lead, trail);
      assert s + Fold(lead, trail) + v == s + Fold(lead, trail);
    } else if IsBreak(v, 0) {
      var w := Width(v[0]);
      NextBreakRead(t, o, v, s, lead, trail);
      SingleBreaks(t, PutNextBreak(t.c, o, v), v[w..], s, lead, trail + v[..w]);
      FoldMore(s, lead, trail, v, w);
    } else {
      AllowedStep(t, v, false, true);
      IndentStep(t, o, v, s, lead, trail);
      SingleText(t, o.WriteIndent(t.c), v, false, false, t.c.indent, s + Fold(lead, trail));
    }
  }

  /** The two breaks put for a first LF. */
  lemma FirstLfHolds(t: Task, o: Out, v: Bytes, first: bool)
    requires t.Ahead(o, v, first, false, false) && v != [] && v[0] == LF
    ensures var o' := PutNextBreak(t.c, o.PutBreak(t.c), v);
            && t.Ahead(o', v[1..], false, false, true)
            && o'.text == o.text + (BreakBytes(t.c.lineBreak) + BreakBytes(t.c.lineBreak))
            && Holds(t.text, |o.text|, BreakBytes(t.c.lineBreak) + BreakBytes(t.c.lineBreak))
  {
    AllowedStep(t, v, false, false);
    var b := BreakBytes(t.c.lineBreak);
    var o' := PutNextBreak(t.c, o.PutBreak(t.c), v);
    assert o'.text == o.text + (b + b);
    SingleHolds(t, o, b + b, o', v[1..], false, true);
  }

  /** Two breaks in the writer's style, read back. */
  lemma TwoBreaksRead(text: Bytes, pos: nat, column: nat, s: Bytes, b: LineBreak)
    requires Holds(text, pos, BreakBytes(b) + BreakBytes(b))
    requires b == CrBreak ==> At(text, pos + 2) != LF
    ensures Text(text, true, pos, column, s) == Gap(text, true, pos + 2 * |BreakBytes(b)|, 0, s, [LF], [LF], [], true)
  {
    HoldsParts(text, pos, BreakBytes(b), BreakBytes(b));
    HoldsTail(text, pos + |BreakBytes(b)|, BreakBytes(b));
    BreakStep(text, true, pos, column, s, b);
    BreakRead(text, pos + |BreakBytes(b)|, b);
    assert [] + [LF] == [LF];
  }

  lemma FirstLfRead(t: Task, o: Out, v: Bytes, first: bool, column: nat, s: Bytes)
    requires t.Ahead(o, v, first, false, false) && v != [] && v[0] == LF
    ensures var o' := PutNextBreak(t.c, o.PutBreak(t.c), v);
            && t.Ahead(o', v[1..], false, false, true)
            && Text(t.text, true, |o.text|, column, s) == Gap(t.text, true, |o'.text|, 0, s, [LF], [LF], [], true)
  {
    FirstLfHolds(t, o, v, first);
    if t.c.lineBreak == CrBreak {
      AfterBreak(t, PutNextBreak(t.c, o.PutBreak(t.c), v), v[1..]);
    }
    TwoBreaksRead(t.text, |o.text|, column, s, t.c.lineBreak);
  }

  /** A first LS or PS, read back. */
  lemma FirstSeparatorRead(t: Task, o: Out, v: Bytes, first: bool, column: nat, s: Bytes)
    requires t.Ahead(o, v, first, false, false) && v != [] && IsBreak(v, 0) && v[0] != LF
    ensures var o' := PutNextBreak(t.c, o, v);
            && Width(v[0]) == 3
            && t.Ahead(o', v[3..], false, false, true)
            && Text(t.text, true, |o.text|, column, s) == Gap(t.text, true, |o'.text|, 0, s, v[..3], [], [], true)
  {
    AllowedStep(t, v, false, false);
    SeparatorRead(t, o, v);
    assert [] + v[..3] == v[..3];
  }

  /** What the first break of a run is folded to. */
  lemma FirstFold(s: Bytes, v: Bytes)
    requires v != [] && IsBreak(v, 0) && Width(v[0]) <= |v|
    ensures v[0] == LF ==> s + Fold([LF], [LF]) + v[1..] == s + v
    ensures v[0] != LF && Width(v[0]) == 3 ==> s + Fold(v[..3], []) + v[3..] == s + v
  {
    if v[0] == LF {
      assert v == [LF] + v[1..];
    } else if Width(v[0]) == 3 {
      assert v[..3] + [] == v[..3] && v == v[..3] + v[3..];
    }
  }

  /** The first break of a run, with the extra one put before LF, read back. */
  lemma {:induction false} FirstBreak(t: Task, o: Out, v: Bytes, first: bool, column: nat, s: Bytes)
    requires t.Ahead(o, v, first, false, false) && v != [] && IsBreak(v, 0)
    ensures Text(t.text, true, |o.text|, column, s) == Scanned(s + v, t.end)
    decreases |v|, 0
  {
    FirstFold(s, v);
    hide *;
    if v[0] == LF {
      FirstLfRead(t, o, v, first, column, s);
      SingleBreaks(t, PutNextBreak(t.c, o.PutBreak(t.c), v), v[1..], s, [LF], [LF]);
    } else {
      FirstSeparatorRead(t, o, v, first, column, s);
      SingleBreaks(t, PutNextBreak(t.c, o, v), v[3..], s, v[..3], []);
    }
  }

  // Within a line

  /** The scanner in its loop over non-blank characters reads the rest of the value. */
  lemma TextEnds(t: Task, o: Out, first: bool, spaces: bool, column: nat, s: Bytes)
    requires t.Ahead(o, [], first, spaces, false)
    ensures Text(t.text, true, |o.text|, column, s) == Scanned(s + [], t.end)
  {
    SingleEnd(t, o, first, spaces, false);
    assert s + [] == s;
  }

  lemma SpaceText(t: Task, o: Out, v: Bytes, first: bool, spaces: bool, column: nat, s: Bytes)
    requires t.Ahead(o, v, first, spaces, false) && SingleInv(o, v, first, spaces) && 1 <= column
    requires v != [] && v[0] == SPACE && !Folds(t, o, v, first, spaces)
    ensures Text(t.text, true, |o.text|, column, s) == Gap(t.text, true, |o.text|, column, s, [], [], [], false)
  {
    SpaceStep(t, o, v, first, spaces);
  }

  lemma Rejoined(s: Bytes, v: Bytes, w: nat)
    requires w <= |v|
    ensures s + v[..w] + v[w..] == s + v
  {
  }

  lemma {:induction false} SingleText(t: Task, o: Out, v: Bytes, first: bool, spaces: bool, column: nat, s: Bytes)
    requires t.Ahead(o, v, first, spaces, false) && SingleInv(o, v, first, spaces) && 1 <= column
    ensures Text(t.text, true, |o.text|, column, s) == Scanned(s + v, t.end)
    decreases |v|, 1
  {
    hide Gap, Lines, Text, Fold, SingleBody, SingleTurn, NextPiece;
    if v == [] {
      TextEnds(t, o, first, spaces, column, s);
    } else if v[0] == SPACE {
      if Folds(t, o, v, first, spaces) {
        SingleFoldStep(t, o, v, first, spaces, column, s);
        Rejoined(s, v, 1);
        assert v[..1] == [SPACE];
        SingleText(t, o.WriteIndent(t.c), v[1..], false, true, t.c.indent, s + [SPACE]);
      } else {
        SpaceText(t, o, v, first, spaces, column, s);
        SingleGap(t, o, v, first, spaces, column, s, []);
        assert s + [] == s;
      }
    } else if IsBreak(v, 0) {
      AllowedStep(t, v, spaces, false);
      FirstBreak(t, o, v, first, column, s);
    } else {
      var w := Width(v[0]);
      var column' := CharStep(t, o, v, first, spaces, column, s);
      SingleText(t, PutChar(o, v), v[w..], false, false, column', s + v[..w]);
      Rejoined(s, v, w);
    }
  }

  /** The scanner in its loop over blanks, with `blanks` pending, reads the rest of the value. */
  lemma {:induction false} SingleGap(t: Task, o: Out, v: Bytes, first: bool, spaces: bool, column: nat, s: Bytes,
      blanks: Bytes)
    requires t.Ahead(o, v, first, spaces, false) && SingleInv(o, v, first, spaces) && 1 <= column
    requires v != [] && v[0] == SPACE ==> !Folds(t, o, v, first, spaces)
    requires v != [] && v[0] != SPACE ==> spaces
    ensures Gap(t.text, true, |o.text|, column, s, [], [], blanks, false) == Scanned(s + blanks + v, t.end)
    decreases |v|, if v != [] && v[0] == SPACE then 0 else 2
  {
    if v != [] && v[0] == SPACE {
      SpaceStep(t, o, v, first, spaces);
      SingleGap(t, o.Write(v), v[1..], false, true, column + 1, s, blanks + [SPACE]);
      assert s + (blanks + [SPACE]) + v[1..] == s + blanks + v;
    } else {
      if v != [] {
        AllowedStep(t, v, spaces, false);
      }
      SingleHead(t, o, v, first, spaces);
      SingleText(t, o, v, first, spaces, column, s + blanks);
    }
  }

  /** The opening quote stands in the text, and the loop starts after it. */
  lemma SingleOpens(c: Config, o: Out, v: Bytes, allowBreaks: bool, text: Bytes)
    requires ValidUtf8(v) && 1 <= c.indent && AnalyzeScalar(c.unicode, v).SingleQuotedAllowed()
    requires SingleQuoted(c, o, v, allowBreaks).text <= text
    requires At(text, |SingleQuoted(c, o, v, allowBreaks).text|) != SQUOTE
    ensures var pos, o1 := |o.text| + if o.whitespace then 0 else 1, o.WriteIndicator([SQUOTE], true, false, false);
            var t := Task(text, |SingleQuoted(c, o, v, allowBreaks).text|, c, allowBreaks);
            && At(text, pos) == SQUOTE == Quote(true) && |o1.text| == pos + 1
            && t.Ahead(o1, v, true, false, false) && SingleInv(o1, v, true, false)
  {
    var o1 := o.WriteIndicator([SQUOTE], true, false, false);
    var out := SingleQuoted(c, o, v, allowBreaks).text;
    var t := Task(text, |out|, c, allowBreaks);
    hide SingleBody, ValidUtf8, Analyze;
    assert out == t.Single(o1, v, true, false, false) + [SQUOTE];
    SingleExtends(t, o1, v, true, false, false);
    assert o1.text <= text && o1.text[|o1.text| - 1] == SQUOTE;
  }

  lemma NotNul(t: Task, o: Out, v: Bytes)
    requires t.Ahead(o, v, true, false, false)
    ensures !IsZ(t.text, |o.text|)
  {
    if v == [] || (v[0] != SPACE && !IsBreak(v, 0)) {
      SingleHead(t, o, v, true, false);
    } else if v[0] == SPACE {
      SpaceStep(t, o, v, true, false);
    } else {
      AllowedStep(t, v, false, false);
      if v[0] == LF {
        var b := BreakBytes(t.c.lineBreak);
        var o' := PutNextBreak(t.c, o.PutBreak(t.c), v);
        assert o'.text == o.text + (b + b);
        SingleHolds(t, o, b + b, o', v[1..], false, true);
        HoldsTail(t.text, |o.text|, b + b);
      } else {
        SeparatorRead(t, o, v);
      }
    }
  }

  /** For every value the analysis allows, including runs of LF, LS and PS and folded spaces, scanning what
      the single-quoted writer puts returns that value, provided no other quote is put right after. */
  lemma SingleQuotedRoundTrip(c: Config, o: Out, v: Bytes, allowBreaks: bool, text: Bytes, column: nat)
    requires ValidUtf8(v) && 1 <= c.indent && AnalyzeScalar(c.unicode, v).SingleQuotedAllowed()
    requires SingleQuoted(c, o, v, allowBreaks).text <= text
    requires At(text, |SingleQuoted(c, o, v, allowBreaks).text|) != SQUOTE
    ensures var pos := |o.text| + if o.whitespace then 0 else 1;
            && At(text, pos) == SQUOTE
            && ScanQuoted(text, true, pos, column) == Scanned(v, |SingleQuoted(c, o, v, allowBreaks).text|)
  {
    hide *;
    var pos, o1 := |o.text| + if o.whitespace then 0 else 1, o.WriteIndicator([SQUOTE], true, false, false);
    var t := Task(text, |SingleQuoted(c, o, v, allowBreaks).text|, c, allowBreaks);
    SingleOpens(c, o, v, allowBreaks, text);
    SingleText(t, o1, v, true, false, column + 1, []);
    NotNul(t, o1, v);
    ScanStarts(text, true, pos, column);
    assert [] + v == v;
  }

  /** Whatever quoted style is asked for, and whichever of the two the emitter then settles on, a valid
      UTF-8 value is read back as it was given. */
  lemma QuotedRoundTrip(c: Config, o: Out, v: Bytes, requested: Style, canonical: bool, simpleKey: bool, text: Bytes,
      column: nat)
    requires ValidUtf8(v) && 1 <= c.indent
    requires WriteQuoted(c, o, v, requested, canonical, simpleKey).text <= text
    requires SelectStyle(requested, AnalyzeScalar(c.unicode, v), canonical, simpleKey) == SingleQuotedStyle ==>
               At(text, |WriteQuoted(c, o, v, requested, canonical, simpleKey).text|) != SQUOTE
    ensures var pos := |o.text| + if o.whitespace then 0 else 1;
            var single :=
              SelectStyle(requested, AnalyzeScalar(c.unicode, v), canonical, simpleKey) == SingleQuotedStyle;
            && At(text, pos) == Quote(single)
            && ScanQuoted(text, single, pos, column)
               == Scanned(v, |WriteQuoted(c, o, v, requested, canonical, simpleKey).text|)
  {
    if SelectStyle(requested, AnalyzeScalar(c.unicode, v), canonical, simpleKey) == SingleQuotedStyle {
      SingleQuotedRoundTrip(c, o, v, !simpleKey, text, column);
    } else {
      DoubleQuotedRoundTrip(c, o, v, !simpleKey, text, column);
    }
  }
}
