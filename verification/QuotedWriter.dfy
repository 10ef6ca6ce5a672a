/** Writing single- and double-quoted scalars and tags (emitterc.go).

  `Out` is what the writers move in `yaml_emitter_t`: the text put so far, the column and the
  `whitespace` and `indention` flags.  The functions on `Out` specify the methods of `Emitter`. */
module QuotedWriter {
  import opened YamlChars

  datatype LineBreak = CrBreak | LnBreak | CrlnBreak

  function BreakBytes(b: LineBreak): Bytes {
    match b
    case CrBreak => [CR]
    case LnBreak => [LF]
    case CrlnBreak => [CR, LF]
  }

  datatype Config = Config(bestWidth: int, indent: int, lineBreak: LineBreak, unicode: bool)

  datatype Out = Out(text: Bytes, column: nat, whitespace: bool, indention: bool) {
    function Put(b: byte): Out {
      this.(text := text + [b], column := column + 1)
    }

    function PutAll(s: Bytes): Out {
      this.(text := text + s, column := column + |s|)
    }

    function PutBreak(c: Config): Out {
      this.(text := text + BreakBytes(c.lineBreak), column := 0)
    }

    /** `write`: the character at the start of `s`. */
    function Write(s: Bytes): Out
      requires s != [] && Width(s[0]) <= |s|
    {
      this.(text := text + s[..Width(s[0])], column := column + 1)
    }

    /** `write_break`: a break of the value, LF being put in the emitter's own style. */
    function WriteBreak(c: Config, s: Bytes): Out
      requires s != [] && Width(s[0]) <= |s|
    {
      if s[0] == LF then PutBreak(c) else Write(s).(column := 0)
    }

    function WriteIndent(c: Config): Out {
      var indent := if c.indent < 0 then 0 else c.indent;
      var o := if !indention || column > indent || (column == indent && !whitespace) then PutBreak(c) else this;
      var pad := if o.column < indent then Spaces(indent - o.column) else [];
      Out(o.text + pad, o.column + |pad|, true, true)
    }

    function WriteIndicator(s: Bytes, needWhitespace: bool, isWhitespace: bool, isIndention: bool): Out {
      var o := if needWhitespace && !whitespace then Put(SPACE) else this;
      Out(o.text + s, o.column + |s|, isWhitespace, indention && isIndention)
    }
  }

  function Spaces(n: nat): (s: Bytes)
    ensures |s| == n && forall i | 0 <= i < n :: s[i] == SPACE
  {
    seq(n, _ => SPACE)
  }

  /** The low `n` hex digits of `v`, most significant first. */
  function HexText(v: nat, n: nat): (s: Bytes)
    ensures |s| == n
  {
    if n == 0 then [] else HexText(v / 0x10, n - 1) + [HexDigit(v % 0x10)]
  }

  /** What follows the backslash for code point `v`. */
  function EscapeText(v: nat): Bytes {
    match v
    case 0x00 => [0x30]
    case 0x07 => [0x61]
    case 0x08 => [0x62]
    case 0x09 => [0x74]
    case 0x0A => [0x6E]
    case 0x0B => [0x76]
    case 0x0C => [0x66]
    case 0x0D => [0x72]
    case 0x1B => [0x65]
    case 0x22 => [0x22]
    case 0x5C => [0x5C]
    case 0x85 => [0x4E]
    case 0xA0 => [0x5F]
    case 0x2028 => [0x4C]
    case 0x2029 => [0x50]
    case _ =>
      if v <= 0xFF then [0x78] + HexText(v, 2)
      else if v <= 0xFFFF then [0x75] + HexText(v, 4)
      else [0x55] + HexText(v, 8)
  }

  /** Whether the double-quoted writer escapes the character at the start of `v`, `bom` telling whether
      the whole value starts with a byte order mark. */
  predicate MustEscape(c: Config, v: Bytes, bom: bool) {
    || !IsPrintable(v, 0)
    || (!c.unicode && !IsAscii(v, 0))
    || bom
    || IsBreak(v, 0)
    || At(v, 0) == DQUOTE
    || At(v, 0) == BACKSLASH
  }

  /** Whether a space may be replaced by a line break here: not the first or last byte of the value. */
  predicate MayFold(c: Config, o: Out, v: Bytes, first: bool, spaces: bool, allowBreaks: bool) {
    allowBreaks && !spaces && o.column > c.bestWidth && !first && |v| > 1
  }

  /** One turn of the loop of the double-quoted writer, with `v` of the value left. */
  function DoubleTurn(c: Config, o: Out, v: Bytes, bom: bool, first: bool, spaces: bool, allowBreaks: bool): Out
    requires v != [] && Width(v[0]) <= |v|
  {
    if MustEscape(c, v, bom) then o.Put(BACKSLASH).PutAll(EscapeText(Decode(v)))
    else if v[0] == SPACE && MayFold(c, o, v, first, spaces, allowBreaks) then
      if IsSpace(v, 1) then o.WriteIndent(c).Put(BACKSLASH) else o.WriteIndent(c)
    else o.Write(v)
  }

  /** The loop of the double-quoted writer. */
  function DoubleBody(c: Config, o: Out, v: Bytes, bom: bool, first: bool, spaces: bool, allowBreaks: bool): Out
    requires ValidUtf8(v)
    decreases |v|
  {
    if v == [] then o
    else
      DoubleBody(c, DoubleTurn(c, o, v, bom, first, spaces, allowBreaks), v[Width(v[0])..], bom, false,
                 !MustEscape(c, v, bom) && v[0] == SPACE, allowBreaks)
  }

  /** `yaml_emitter_write_double_quoted_scalar`. */
  function DoubleQuoted(c: Config, o: Out, v: Bytes, allowBreaks: bool): Out
    requires ValidUtf8(v)
  {
    DoubleBody(c, o.WriteIndicator([DQUOTE], true, false, false), v, IsBom(v), true, false, allowBreaks)
    .WriteIndicator([DQUOTE], false, false, false).(whitespace := false, indention := false)
  }

  /** The single-quoted writer's turn for a break that follows another. */
  function PutNextBreak(c: Config, o: Out, v: Bytes): Out
    requires v != [] && Width(v[0]) <= |v|
  {
    o.WriteBreak(c, v).(indention := true)
  }

  /** Its turn for a character that is neither space nor break, on a line already indented. */
  function PutChar(o: Out, v: Bytes): Out
    requires v != [] && Width(v[0]) <= |v|
  {
    (if v[0] == SQUOTE then o.Put(SQUOTE) else o).Write(v).(indention := false)
  }

  /** One turn of the loop of the single-quoted writer, with `v` of the value left. */
  function SingleTurn(c: Config, o: Out, v: Bytes, first: bool, spaces: bool, breaks: bool, allowBreaks: bool): Out
    requires v != [] && Width(v[0]) <= |v|
  {
    if v[0] == SPACE then
      if MayFold(c, o, v, first, spaces, allowBreaks) && !IsSpace(v, 1) then o.WriteIndent(c) else o.Write(v)
    else if IsBreak(v, 0) then PutNextBreak(c, if !breaks && v[0] == LF then o.PutBreak(c) else o, v)
    else PutChar(if breaks then o.WriteIndent(c) else o, v)
  }

  /** The loop of the single-quoted writer. */
  function SingleBody(c: Config, o: Out, v: Bytes, first: bool, spaces: bool, breaks: bool, allowBreaks: bool): Out
    requires ValidUtf8(v)
    decreases |v|
  {
    if v == [] then o
    else
      SingleBody(c, SingleTurn(c, o, v, first, spaces, breaks, allowBreaks), v[Width(v[0])..], false,
                 v[0] == SPACE || (spaces && IsBreak(v, 0)), IsBreak(v, 0) || (breaks && v[0] == SPACE), allowBreaks)
  }

  /** `yaml_emitter_write_single_quoted_scalar`. */
  function SingleQuoted(c: Config, o: Out, v: Bytes, allowBreaks: bool): Out
    requires ValidUtf8(v)
  {
    SingleBody(c, o.WriteIndicator([SQUOTE], true, false, false), v, true, false, false, allowBreaks)
    .WriteIndicator([SQUOTE], false, false, false).(whitespace := false, indention := false)
  }

  /** What `yaml_emitter_analyze_scalar` learns that bears on the quoted styles. */
  datatype Analysis = Analysis(multiline: bool, special: bool, breakSpace: bool, spaceBreak: bool) {
    predicate SingleQuotedAllowed() {
      !special && !breakSpace && !spaceBreak
    }
  }

  function Analyze(unicode: bool, v: Bytes, previousSpace: bool, previousBreak: bool, a: Analysis): Analysis
    requires ValidUtf8(v)
    decreases |v|
  {
    if v == [] then a
    else
      var a' := a.(special := a.special || !IsPrintable(v, 0) || (!IsAscii(v, 0) && !unicode));
      var rest := v[Width(v[0])..];
      if v[0] == SPACE then
        Analyze(unicode, rest, true, false, a'.(breakSpace := a.breakSpace || previousBreak))
      else if IsBreak(v, 0) then
        Analyze(unicode, rest, false, true, a'.(multiline := true, spaceBreak := a.spaceBreak || previousSpace))
      else Analyze(unicode, rest, false, false, a')
  }

  function AnalyzeScalar(unicode: bool, v: Bytes): Analysis
    requires ValidUtf8(v)
  {
    Analyze(unicode, v, false, false, Analysis(false, false, false, false))
  }

  datatype Style = SingleQuotedStyle | DoubleQuotedStyle

  /** How `yaml_emitter_select_scalar_style` settles a request for a quoted style. */
  function SelectStyle(requested: Style, a: Analysis, canonical: bool, simpleKey: bool): Style {
    if canonical || (simpleKey && a.multiline) || (requested == SingleQuotedStyle && !a.SingleQuotedAllowed())
    then DoubleQuotedStyle
    else requested
  }

  /** Selecting a quoted style and writing the scalar in it. */
  function WriteQuoted(c: Config, o: Out, v: Bytes, requested: Style, canonical: bool, simpleKey: bool): Out
    requires ValidUtf8(v)
  {
    match SelectStyle(requested, AnalyzeScalar(c.unicode, v), canonical, simpleKey)
    case SingleQuotedStyle => SingleQuoted(c, o, v, !simpleKey)
    case DoubleQuotedStyle => DoubleQuoted(c, o, v, !simpleKey)
  }

  /** The characters a tag holds as they are: letters, digits, `_`, `-` and `$&'()*+,./:;=?@[]~`. */
  predicate TagVerbatim(b: byte) {
    || IsAlpha(b)
    || b == 0x24 || 0x26 <= b <= 0x2C || 0x2E <= b <= 0x2F || 0x3A <= b <= 0x3B
    || b == 0x3D || 0x3F <= b <= 0x40 || b == 0x5B || b == 0x5D || b == 0x7E
  }

  /** The percent-escaped form of the first `n` octets of `s`. */
  function PercentText(s: Bytes, n: nat): Bytes
    requires n <= |s|
  {
    if n == 0 then [] else PercentText(s, n - 1) + [PERCENT, HexDigit(s[n - 1] / 0x10), HexDigit(s[n - 1] % 0x10)]
  }

  /** What the tag writer puts for the character at the start of `v`. */
  function TagChar(v: Bytes): Bytes
    requires v != [] && Width(v[0]) <= |v|
  {
    if TagVerbatim(v[0]) then v[..Width(v[0])] else PercentText(v, Width(v[0]))
  }

  /** The text the tag writer puts for `v`. */
  function TagText(v: Bytes): Bytes
    requires Whole(v)
    decreases |v|
  {
    if v == [] then [] else TagChar(v) + TagText(v[Width(v[0])..])
  }

  /** `yaml_emitter_write_tag_content`. */
  function TagContent(o: Out, v: Bytes, needWhitespace: bool): Out
    requires Whole(v)
  {
    var o' := if needWhitespace && !o.whitespace then o.Put(SPACE) else o;
    Out(o'.text + TagText(v), o'.column + |TagText(v)|, false, false)
  }

  lemma NextChar(v: Bytes, i: nat)
    requires i < |v| && ValidUtf8(v[i..])
    ensures var w := Width(v[i]);
            StartsWithChar(v[i..]) && 1 <= w && i + w <= |v| && ValidUtf8(v[i + w..]) && v[i..][w..] == v[i + w..]
  {
  }

  /** Before the character at `i` the double-quoted writer has put what is due: the rest of the value from `o` gives
      what the whole value gives from `was`. */
  ghost predicate DoubleSoFar(c: Config, was: Out, o: Out, v: Bytes, i: nat, bom: bool, spaces: bool,
      allowBreaks: bool)
    requires ValidUtf8(v)
  {
    && i <= |v| && ValidUtf8(v[i..])
    && DoubleBody(c, o, v[i..], bom, i == 0, spaces, allowBreaks)
       == DoubleBody(c, was, v, bom, true, false, allowBreaks)
  }

  lemma DoubleStarts(c: Config, o: Out, v: Bytes, bom: bool, allowBreaks: bool)
    requires ValidUtf8(v)
    ensures DoubleSoFar(c, o, o, v, 0, bom, false, allowBreaks)
  {
    assert v[0..] == v;
  }

  lemma DoubleGoesOn(c: Config, was: Out, o: Out, v: Bytes, i: nat, bom: bool, spaces: bool, allowBreaks: bool)
    requires ValidUtf8(v) && i < |v| && DoubleSoFar(c, was, o, v, i, bom, spaces, allowBreaks)
    ensures StartsWithChar(v[i..]) && 1 <= Width(v[i]) <= |v| - i
    ensures var o' := DoubleTurn(c, o, v[i..], bom, i == 0, spaces, allowBreaks);
            DoubleSoFar(c, was, o', v, i + Width(v[i]), bom, !MustEscape(c, v[i..], bom) && v[i] == SPACE, allowBreaks)
  {
    hide DoubleTurn, MustEscape, Decode;
    NextChar(v, i);
  }

  lemma DoubleEnds(c: Config, was: Out, o: Out, v: Bytes, i: nat, bom: bool, spaces: bool, allowBreaks: bool)
    requires ValidUtf8(v) && i >= |v| && DoubleSoFar(c, was, o, v, i, bom, spaces, allowBreaks)
    ensures o == DoubleBody(c, was, v, bom, true, false, allowBreaks)
  {
    assert v[i..] == [];
  }

  /** The same for the single-quoted writer. */
  ghost predicate SingleSoFar(c: Config, was: Out, o: Out, v: Bytes, i: nat, spaces: bool, breaks: bool,
      allowBreaks: bool)
    requires ValidUtf8(v)
  {
    && i <= |v| && ValidUtf8(v[i..])
    && SingleBody(c, o, v[i..], i == 0, spaces, breaks, allowBreaks)
       == SingleBody(c, was, v, true, false, false, allowBreaks)
  }

  lemma SingleStarts(c: Config, o: Out, v: Bytes, allowBreaks: bool)
    requires ValidUtf8(v)
    ensures SingleSoFar(c, o, o, v, 0, false, false, allowBreaks)
  {
    assert v[0..] == v;
  }

  lemma SingleGoesOn(c: Config, was: Out, o: Out, v: Bytes, i: nat, spaces: bool, breaks: bool, allowBreaks: bool)
    requires ValidUtf8(v) && i < |v| && SingleSoFar(c, was, o, v, i, spaces, breaks, allowBreaks)
    ensures StartsWithChar(v[i..]) && 1 <= Width(v[i]) <= |v| - i
    ensures var o' := SingleTurn(c, o, v[i..], i == 0, spaces, breaks, allowBreaks);
            SingleSoFar(c, was, o', v, i + Width(v[i]), v[i] == SPACE || (spaces && IsBreak(v[i..], 0)),
                        IsBreak(v[i..], 0) || (breaks && v[i] == SPACE), allowBreaks)
  {
    hide SingleTurn, IsBreak, Decode;
    NextChar(v, i);
  }

  lemma SingleEnds(c: Config, was: Out, o: Out, v: Bytes, i: nat, spaces: bool, breaks: bool, allowBreaks: bool)
    requires ValidUtf8(v) && i >= |v| && SingleSoFar(c, was, o, v, i, spaces, breaks, allowBreaks)
    ensures o == SingleBody(c, was, v, true, false, false, allowBreaks)
  {
    assert v[i..] == [];
  }

  /** After `n` spaces. */
  function Padded(o: Out, n: nat): Out {
    o.(text := o.text + Spaces(n), column := o.column + n)
  }

  lemma Unpadded(o: Out)
    ensures Padded(o, 0) == o
  {
    assert o.text + Spaces(0) == o.text;
  }

  lemma PadOne(o: Out, n: nat)
    ensures Padded(o, n).Put(SPACE) == Padded(o, n + 1) && Padded(o, n + 1).column == Padded(o, n).column + 1
  {
    assert Spaces(n + 1) == Spaces(n) + [SPACE];
  }

  lemma IndentIs(c: Config, o: Out)
    ensures var indent := if c.indent < 0 then 0 else c.indent;
            var b := if !o.indention || o.column > indent || (o.column == indent && !o.whitespace) then o.PutBreak(c)
                     else o;
            o.WriteIndent(c) == Padded(b, if b.column < indent then indent - b.column else 0)
                                .(whitespace := true, indention := true)
  {
    hide Out.PutBreak;
  }

  /** Before the octet at `i` the tag writer has put what is due. */
  ghost predicate TagSoFar(was: Out, o: Out, v: Bytes, i: nat)
    requires Whole(v)
  {
    i <= |v| && Whole(v[i..]) && o.PutAll(TagText(v[i..])) == was.PutAll(TagText(v))
  }

  lemma TagStarts(o: Out, v: Bytes)
    requires Whole(v)
    ensures TagSoFar(o, o, v, 0)
  {
    assert v[0..] == v;
  }

  lemma NextWhole(v: Bytes, i: nat)
    requires i < |v| && Whole(v[i..])
    ensures 1 <= Width(v[i]) <= |v| - i && Whole(v[i + Width(v[i])..]) && v[i..][Width(v[i])..] == v[i + Width(v[i])..]
    ensures TagText(v[i..]) == TagChar(v[i..]) + TagText(v[i + Width(v[i])..])
  {
    hide TagChar;
    assert v[i..][Width(v[i])..] == v[i + Width(v[i])..];
  }

  lemma TagGoesOn(was: Out, o: Out, v: Bytes, i: nat)
    requires Whole(v) && i < |v| && TagSoFar(was, o, v, i)
    ensures 1 <= Width(v[i]) <= |v| - i && TagSoFar(was, o.PutAll(TagChar(v[i..])), v, i + Width(v[i]))
  {
    hide TagChar, TagText, Whole, Width;
    NextWhole(v, i);
    var here, more := TagChar(v[i..]), TagText(v[i + Width(v[i])..]);
    assert o.text + (here + more) == o.text + here + more;
  }

  lemma TagEnds(was: Out, o: Out, v: Bytes, i: nat)
    requires Whole(v) && i >= |v| && TagSoFar(was, o, v, i)
    ensures o.text == was.text + TagText(v) && o.column == was.column + |TagText(v)|
    ensures o.whitespace == was.whitespace && o.indention == was.indention
  {
    assert v[i..] == [] && o.text + [] == o.text;
  }

  /** The part of `yaml_emitter_t` the writers move. */
  class Emitter {
    const c: Config
    var text: Bytes
    var column: nat
    var whitespace: bool
    var indention: bool

    constructor (c: Config)
      ensures this.c == c && State() == Out([], 0, true, true)
    {
      this.c := c;
      text, column, whitespace, indention := [], 0, true, true;
    }

    function State(): Out
      reads this
    {
      Out(text, column, whitespace, indention)
    }

    method Put(b: byte)
      modifies this
      ensures State() == old(State()).Put(b)
    {
      text, column := text + [b], column + 1;
    }

    method PutBreak()
      modifies this
      ensures State() == old(State()).PutBreak(c)
    {
      match c.lineBreak {
        case CrBreak => text := text + [CR];
        case LnBreak => text := text + [LF];
        case CrlnBreak => text := text + [CR, LF];
      }
      column := 0;
    }

    /** `write`: copies the character at index `i` of `s` and moves past it. */
    method Write(s: Bytes, i: nat) returns (next: nat)
      requires i < |s| && 1 <= Width(s[i]) <= |s| - i
      modifies this
      ensures State() == old(State()).Write(s[i..]) && next == i + Width(s[i])
    {
      next := i + Width(s[i]);
      assert s[i..next] == s[i..][..Width(s[i])];
      text, column := text + s[i..next], column + 1;
    }

    method WriteBreak(s: Bytes, i: nat) returns (next: nat)
      requires i < |s| && 1 <= Width(s[i]) <= |s| - i
      modifies this
      ensures State() == old(State()).WriteBreak(c, s[i..]) && next == i + Width(s[i])
    {
      if s[i] == LF {
        PutBreak();
        next := i + 1;
      } else {
        next := Write(s, i);
        column := 0;
      }
    }

    method WriteIndent()
      modifies this
      ensures State() == old(State()).WriteIndent(c)
    {
      hide Padded, Out.PutBreak, Out.WriteIndent;
      IndentIs(c, State());
      var indent := if c.indent < 0 then 0 else c.indent;
      if !indention || column > indent || (column == indent && !whitespace) {
        PutBreak();
      }
      ghost var before := State();
      Unpadded(before);
      while column < indent
        invariant before.column <= column && (column <= indent || column == before.column)
        invariant State() == Padded(before, column - before.column)
      {
        PadOne(before, column - before.column);
        Put(SPACE);
      }
      whitespace, indention := true, true;
    }

    method WriteIndicator(s: Bytes, needWhitespace: bool, isWhitespace: bool, isIndention: bool)
      modifies this
      ensures State() == old(State()).WriteIndicator(s, needWhitespace, isWhitespace, isIndention)
    {
      if needWhitespace && !whitespace {
        Put(SPACE);
      }
      text, column := text + s, column + |s|;
      whitespace, indention := isWhitespace, indention && isIndention;
    }

    /** What follows a backslash. */
    method PutEscape(v: nat)
      modifies this
      ensures State() == old(State()).PutAll(EscapeText(v))
    {
      var e := EscapeText(v);
      var k := 0;
      while k < |e|
        invariant 0 <= k <= |e| && State() == old(State()).PutAll(e[..k])
      {
        assert e[..k + 1] == e[..k] + [e[k]];
        Put(e[k]);
        k := k + 1;
      }
      assert e[..k] == e;
    }

    method WriteDoubleQuoted(v: Bytes, allowBreaks: bool)
      requires ValidUtf8(v)
      modifies this
      ensures State() == DoubleQuoted(c, old(State()), v, allowBreaks)
    {
      WriteIndicator([DQUOTE], true, false, false);
      DoubleQuotedLoop(v, IsBom(v), allowBreaks);
      WriteIndicator([DQUOTE], false, false, false);
      whitespace, indention := false, false;
    }

    method DoubleQuotedLoop(v: Bytes, bom: bool, allowBreaks: bool)
      requires ValidUtf8(v)
      modifies this
      ensures State() == DoubleBody(c, old(State()), v, bom, true, false, allowBreaks)
    {
      var spaces := false;
      var i := 0;
      hide *;
      ghost var was := State();
      DoubleStarts(c, was, v, bom, allowBreaks);
      while i < |v|
        invariant 0 <= i <= |v| && DoubleSoFar(c, was, State(), v, i, bom, spaces, allowBreaks)
        decreases |v| - i
      {
        DoubleGoesOn(c, was, State(), v, i, bom, spaces, allowBreaks);
        i, spaces := DoubleQuotedTurn(v, i, bom, spaces, allowBreaks);
      }
      DoubleEnds(c, was, State(), v, i, bom, spaces, allowBreaks);
    }

    method DoubleQuotedTurn(v: Bytes, i: nat, bom: bool, wasSpaces: bool, allowBreaks: bool)
        returns (next: nat, spaces: bool)
      requires i < |v| && StartsWithChar(v[i..])
      modifies this
      ensures State() == DoubleTurn(c, old(State()), v[i..], bom, i == 0, wasSpaces, allowBreaks)
      ensures next == i + Width(v[i]) && spaces == (!MustEscape(c, v[i..], bom) && v[i] == SPACE)
    {
      if MustEscape(c, v[i..], bom) {
        Put(BACKSLASH);
        PutEscape(Decode(v[i..]));
        next, spaces := i + Width(v[i]), false;
      } else if v[i] == SPACE {
        if allowBreaks && !wasSpaces && column > c.bestWidth && i > 0 && i < |v| - 1 {
          WriteIndent();
          if IsSpace(v, i + 1) {
            Put(BACKSLASH);
          }
          next := i + 1;
        } else {
          next := Write(v, i);
        }
        spaces := true;
      } else {
        next := Write(v, i);
        spaces := false;
      }
    }

    method WriteSingleQuoted(v: Bytes, allowBreaks: bool)
      requires ValidUtf8(v)
      modifies this
      ensures State() == SingleQuoted(c, old(State()), v, allowBreaks)
    {
      WriteIndicator([SQUOTE], true, false, false);
      SingleQuotedLoop(v, allowBreaks);
      WriteIndicator([SQUOTE], false, false, false);
      whitespace, indention := false, false;
    }

    method SingleQuotedLoop(v: Bytes, allowBreaks: bool)
      requires ValidUtf8(v)
      modifies this
      ensures State() == SingleBody(c, old(State()), v, true, false, false, allowBreaks)
    {
      var spaces, breaks := false, false;
      var i := 0;
      hide *;
      ghost var was := State();
      SingleStarts(c, was, v, allowBreaks);
      while i < |v|
        invariant 0 <= i <= |v| && SingleSoFar(c, was, State(), v, i, spaces, breaks, allowBreaks)
        decreases |v| - i
      {
        SingleGoesOn(c, was, State(), v, i, spaces, breaks, allowBreaks);
        i, spaces, breaks := SingleQuotedTurn(v, i, spaces, breaks, allowBreaks);
      }
      SingleEnds(c, was, State(), v, i, spaces, breaks, allowBreaks);
    }

    method SingleQuotedTurn(v: Bytes, i: nat, wasSpaces: bool, wasBreaks: bool, allowBreaks: bool)
      returns (next: nat, spaces: bool, breaks: bool)
      requires i < |v| && StartsWithChar(v[i..])
      modifies this
      ensures State() == SingleTurn(c, old(State()), v[i..], i == 0, wasSpaces, wasBreaks, allowBreaks)
      ensures next == i + Width(v[i])
      ensures spaces == (v[i] == SPACE || (wasSpaces && IsBreak(v[i..], 0)))
      ensures breaks == (IsBreak(v[i..], 0) || (wasBreaks && v[i] == SPACE))
    {
      spaces, breaks := wasSpaces, wasBreaks;
      if v[i] == SPACE {
        if allowBreaks && !spaces && column > c.bestWidth && i > 0 && i < |v| - 1 && !IsSpace(v, i + 1) {
          WriteIndent();
          next := i + 1;
        } else {
          next := Write(v, i);
        }
        spaces := true;
      } else if IsBreak(v, i) {
        if !breaks && v[i] == LF {
          PutBreak();
        }
        next := WriteBreak(v, i);
        indention, breaks := true, true;
      } else {
        if breaks {
          WriteIndent();
        }
        if v[i] == SQUOTE {
          Put(SQUOTE);
        }
        next := Write(v, i);
        indention, spaces, breaks := false, false, false;
      }
    }

    /** Selecting between the quoted styles and writing. */
    method WriteScalar(v: Bytes, requested: Style, canonical: bool, simpleKey: bool)
      requires ValidUtf8(v)
      modifies this
      ensures State() == WriteQuoted(c, old(State()), v, requested, canonical, simpleKey)
    {
      var a := AnalyzeValue(c.unicode, v);
      match SelectStyle(requested, a, canonical, simpleKey) {
        case SingleQuotedStyle => WriteSingleQuoted(v, !simpleKey);
        case DoubleQuotedStyle => WriteDoubleQuoted(v, !simpleKey);
      }
    }

    method WriteTagContent(v: Bytes, needWhitespace: bool)
      requires Whole(v)
      modifies this
      ensures State() == TagContent(old(State()), v, needWhitespace)
    {
      if needWhitespace && !whitespace {
        Put(SPACE);
      }
      var i := 0;
      hide TagSoFar, TagText, TagChar, Whole, Width, Out.PutAll;
      ghost var was := State();
      TagStarts(was, v);
      while i < |v|
        invariant 0 <= i <= |v| && TagSoFar(was, State(), v, i)
        decreases |v| - i
      {
        TagGoesOn(was, State(), v, i);
        PutTagChar(v[i..]);
        i := i + Width(v[i]);
      }
      TagEnds(was, State(), v, i);
      whitespace, indention := false, false;
    }

    method PutTagChar(v: Bytes)
      requires v != [] && 1 <= Width(v[0]) <= |v|
      modifies this
      ensures State() == old(State()).PutAll(TagChar(v))
    {
      if TagVerbatim(v[0]) {
        var _ := Write(v, 0);
      } else {
        PutPercent(v, Width(v[0]));
      }
    }

    method PutPercent(s: Bytes, w: nat)
      requires w <= |s|
      modifies this
      ensures State() == old(State()).PutAll(PercentText(s, w))
    {
      var k := 0;
      while k < w
        invariant 0 <= k <= w
        invariant State() == old(State()).PutAll(PercentText(s, k))
      {
        Put(PERCENT);
        Put(HexDigit(s[k] / 0x10));
        Put(HexDigit(s[k] % 0x10));
        k := k + 1;
      }
    }
  }

  lemma SuffixClasses(v: Bytes, i: nat)
    requires i < |v|
    ensures At(v[i..], 0) == v[i]
    ensures IsPrintable(v, i) <==> IsPrintable(v[i..], 0)
    ensures IsAscii(v, i) <==> IsAscii(v[i..], 0)
    ensures IsSpace(v, i) <==> v[i] == SPACE
    ensures IsBreak(v, i) <==> IsBreak(v[i..], 0)
  {
    assert At(v[i..], 0) == At(v, i) && At(v[i..], 1) == At(v, i + 1) && At(v[i..], 2) == At(v, i + 2);
  }

  /** What is known after the character at `i`. */
  function Analyzed(unicode: bool, v: Bytes, i: nat, previousSpace: bool, previousBreak: bool, a: Analysis): Analysis
    requires i < |v|
  {
    var a' := a.(special := a.special || !IsPrintable(v, i) || (!IsAscii(v, i) && !unicode));
    if v[i] == SPACE then a'.(breakSpace := a.breakSpace || previousBreak)
    else if IsBreak(v, i) then a'.(multiline := true, spaceBreak := a.spaceBreak || previousSpace)
    else a'
  }

  /** What is known before the character at `i`, and the rest of the value, give the whole analysis. */
  ghost predicate AnalyzedSoFar(unicode: bool, v: Bytes, i: nat, previousSpace: bool, previousBreak: bool, a: Analysis)
    requires ValidUtf8(v)
  {
    && i <= |v| && ValidUtf8(v[i..])
    && Analyze(unicode, v[i..], previousSpace, previousBreak, a) == AnalyzeScalar(unicode, v)
  }

  lemma AnalysisStarts(unicode: bool, v: Bytes)
    requires ValidUtf8(v)
    ensures AnalyzedSoFar(unicode, v, 0, false, false, Analysis(false, false, false, false))
  {
    assert v[0..] == v;
  }

  lemma AnalysisGoesOn(unicode: bool, v: Bytes, i: nat, previousSpace: bool, previousBreak: bool, a: Analysis)
    requires ValidUtf8(v) && i < |v| && AnalyzedSoFar(unicode, v, i, previousSpace, previousBreak, a)
    ensures 1 <= Width(v[i]) <= |v| - i
    ensures AnalyzedSoFar(unicode, v, i + Width(v[i]), v[i] == SPACE, v[i] != SPACE && IsBreak(v, i),
                          Analyzed(unicode, v, i, previousSpace, previousBreak, a))
  {
    hide IsPrintable, IsBreak, IsAscii, Decode;
    SuffixClasses(v, i);
    NextChar(v, i);
  }

  lemma AnalysisEnds(unicode: bool, v: Bytes, i: nat, previousSpace: bool, previousBreak: bool, a: Analysis)
    requires ValidUtf8(v) && i >= |v| && AnalyzedSoFar(unicode, v, i, previousSpace, previousBreak, a)
    ensures a == AnalyzeScalar(unicode, v)
  {
    assert v[i..] == [];
  }

  /** The loop of `yaml_emitter_analyze_scalar`. */
  method AnalyzeValue(unicode: bool, v: Bytes) returns (a: Analysis)
    requires ValidUtf8(v)
    ensures a == AnalyzeScalar(unicode, v)
  {
    a := Analysis(false, false, false, false);
    var previousSpace, previousBreak := false, false;
    var i := 0;
    AnalysisStarts(unicode, v);
    hide AnalyzedSoFar, ValidUtf8, Width, Analyze, IsPrintable, IsAscii, IsBreak;
    while i < |v|
      invariant 0 <= i <= |v| && AnalyzedSoFar(unicode, v, i, previousSpace, previousBreak, a)
      decreases |v| - i
    {
      AnalysisGoesOn(unicode, v, i, previousSpace, previousBreak, a);
      if !IsPrintable(v, i) || (!IsAscii(v, i) && !unicode) {
        a := a.(special := true);
      }
      if IsSpace(v, i) {
        if previousBreak {
          a := a.(breakSpace := true);
        }
        previousSpace, previousBreak := true, false;
      } else if IsBreak(v, i) {
        a := a.(multiline := true);
        if previousSpace {
          a := a.(spaceBreak := true);
        }
        previousSpace, previousBreak := false, true;
      } else {
        previousSpace, previousBreak := false, false;
      }
      i := i + Width(v[i]);
    }
    AnalysisEnds(unicode, v, i, previousSpace, previousBreak, a);
  }
}
