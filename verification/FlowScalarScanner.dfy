/** Scanning a quoted scalar (`yaml_parser_scan_flow_scalar`).

  The scanner's three nested loops are the three functions below, one for the state at the head of
  each loop: `Lines` (once a line), `Text` (non-blank characters), `Gap` (blanks and breaks).  Each
  gives the outcome of the rest of the scan; the method with the loops is proved to compute it. */
module FlowScalarScanner {
  import opened YamlChars

  datatype ScanError =
    | DocumentIndicator
    | EndOfStream
    | UnknownEscape
    | ExpectedHex
    | InvalidUnicode
    | InvalidSequence

  /** A scanned scalar with the position after its closing quote, or why there is none. */
  datatype Scanned = Scanned(value: Bytes, end: nat) | Refused(error: ScanError)

  datatype ScanFailure = NoFailure | Failure(error: ScanError)

  /** What an escape letter stands for: a literal, or a code of that many hex digits. */
  datatype Escape = Literal(text: Bytes) | Code(digits: nat) | Unknown

  function EscapeOf(b: byte): Escape {
    match b
    case 0x30 => Literal([0x00])
    case 0x61 => Literal([0x07])
    case 0x62 => Literal([0x08])
    case 0x74 => Literal([0x09])
    case 0x09 => Literal([0x09])
    case 0x6E => Literal([0x0A])
    case 0x76 => Literal([0x0B])
    case 0x66 => Literal([0x0C])
    case 0x72 => Literal([0x0D])
    case 0x65 => Literal([0x1B])
    case 0x20 => Literal([0x20])
    case 0x22 => Literal([0x22])
    case 0x27 => Literal([0x27])
    case 0x5C => Literal([0x5C])
    case 0x4E => Literal([0xC2, 0x85])
    case 0x5F => Literal([0xC2, 0xA0])
    case 0x4C => Literal([0xE2, 0x80, 0xA8])
    case 0x50 => Literal([0xE2, 0x80, 0xA9])
    case 0x78 => Code(2)
    case 0x75 => Code(4)
    case 0x55 => Code(8)
    case _ => Unknown
  }

  /** `n` hex digits from `pos` on, most significant first, or -1. */
  function HexValue(text: Bytes, pos: nat, n: nat): (v: int)
    ensures v >= -1
    ensures v >= 0 ==> forall k | pos <= k < pos + n :: IsHex(At(text, k))
  {
    if n == 0 then 0
    else
      var high := HexValue(text, pos, n - 1);
      var b := At(text, pos + n - 1);
      if high < 0 || !IsHex(b) then -1 else high * 0x10 + AsHex(b)
  }

  /** The escape sequence whose backslash is at `pos`: its text and the position after it. */
  function ScanEscape(text: Bytes, pos: nat): (r: Scanned)
    requires At(text, pos) == BACKSLASH
    ensures r.Scanned? ==> pos < r.end <= |text|
  {
    match EscapeOf(At(text, pos + 1))
    case Unknown => Refused(UnknownEscape)
    case Literal(t) => Scanned(t, pos + 2)
    case Code(n) =>
      var v := HexValue(text, pos + 2, n);
      if v < 0 then Refused(ExpectedHex)
      else if !IsScalarValue(v) then Refused(InvalidUnicode)
      else
        assert IsHex(At(text, pos + 2 + n - 1));
        Scanned(Encode(v), pos + 2 + n)
  }

  /** The length of the line break at `pos`, CR LF being one break. */
  function BreakWidth(text: Bytes, pos: nat): nat
    requires IsBreak(text, pos)
  {
    if At(text, pos) == CR && At(text, pos + 1) == LF then 2 else Width(At(text, pos))
  }

  /** What a line break at `pos` is read as: LS and PS stay, any other becomes LF. */
  function BreakText(text: Bytes, pos: nat): Bytes
    requires IsBreak(text, pos)
  {
    if At(text, pos) == 0xE2 then text[pos..pos + 3] else [LF]
  }

  predicate AtDocumentIndicator(text: Bytes, pos: nat) {
    && (|| (At(text, pos) == DASH && At(text, pos + 1) == DASH && At(text, pos + 2) == DASH)
        || (At(text, pos) == DOT && At(text, pos + 1) == DOT && At(text, pos + 2) == DOT))
    && IsBlankz(text, pos + 3)
  }

  function Quote(single: bool): byte {
    if single then SQUOTE else DQUOTE
  }

  /** Line folding: a lone LF is a space, a first LF before further breaks is dropped. */
  function Fold(lead: Bytes, trail: Bytes): Bytes {
    if lead != [] && lead[0] == LF then if trail == [] then [SPACE] else trail else lead + trail
  }

  function Left(text: Bytes, pos: nat): nat {
    if pos <= |text| then |text| - pos else 0
  }

  /** The head of the outer loop: `s` has been read and nothing is pending. */
  function Lines(text: Bytes, single: bool, pos: nat, column: nat, s: Bytes): Scanned
    decreases Left(text, pos), 2
  {
    if column == 0 && AtDocumentIndicator(text, pos) then Refused(DocumentIndicator)
    else if IsZ(text, pos) then Refused(EndOfStream)
    else Text(text, single, pos, column, s)
  }

  /** The next piece of a run of non-blank characters: text with the position after it and the columns
      it takes, the closing quote, an escaped line break, or an error. */
  datatype Piece = Piece(text: Bytes, next: nat, columns: nat) | Close | EscapedBreak(next: nat) | Bad(error: ScanError)

  function NextPiece(text: Bytes, single: bool, pos: nat): (p: Piece)
    requires !IsBlankz(text, pos)
    ensures (p.Piece? || p.EscapedBreak?) ==> pos < p.next <= |text|
  {
    var b := At(text, pos);
    if single && b == SQUOTE && At(text, pos + 1) == SQUOTE then Piece([SQUOTE], pos + 2, 2)
    else if b == Quote(single) then Close
    else if !single && b == BACKSLASH && IsBreak(text, pos + 1) then EscapedBreak(pos + 1 + BreakWidth(text, pos + 1))
    else if !single && b == BACKSLASH then
      match ScanEscape(text, pos)
      case Refused(e) => Bad(e)
      case Scanned(t, next) => Piece(t, next, next - pos)
    else if Width(b) == 0 || pos + Width(b) > |text| then Bad(InvalidSequence)
    else Piece(text[pos..pos + Width(b)], pos + Width(b), 1)
  }

  /** The head of the loop over non-blank characters. */
  function Text(text: Bytes, single: bool, pos: nat, column: nat, s: Bytes): Scanned
    decreases Left(text, pos), if IsZ(text, pos) then 4 else 1
  {
    if IsBlankz(text, pos) then Gap(text, single, pos, column, s, [], [], [], false)
    else
      match NextPiece(text, single, pos)
      case Piece(t, next, columns) => Text(text, single, next, column + columns, s + t)
      case Close => Scanned(s, pos + 1)
      case EscapedBreak(next) =>
        if At(text, next) == Quote(single) then Scanned(s, next + 1)
        else Gap(text, single, next, 0, s, [], [], [], true)
      case Bad(e) => Refused(e)
  }

  /** The head of the loop over blanks and breaks: `lead` is the first break read, `trail` the breaks
      after it, `blanks` the blanks before it, `broken` whether a break (or an escaped one) was seen. */
  function Gap(text: Bytes, single: bool, pos: nat, column: nat, s: Bytes, lead: Bytes, trail: Bytes,
               blanks: Bytes, broken: bool): Scanned
    decreases Left(text, pos), if IsBlank(text, pos) || IsBreak(text, pos) then 0 else 3
  {
    if IsBlank(text, pos) then
      Gap(text, single, pos + 1, column + 1, s, lead, trail, if broken then blanks else blanks + [text[pos]], broken)
    else if IsBreak(text, pos) then
      var next, t := pos + BreakWidth(text, pos), BreakText(text, pos);
      if broken then Gap(text, single, next, 0, s, lead, trail + t, blanks, true)
      else Gap(text, single, next, 0, s, lead + t, trail, [], true)
    else Lines(text, single, pos, column, s + if broken then Fold(lead, trail) else blanks)
  }

  /** A quoted scalar whose opening quote is at `pos`. */
  function ScanQuoted(text: Bytes, single: bool, pos: nat, column: nat): Scanned
    requires At(text, pos) == Quote(single)
  {
    Lines(text, single, pos + 1, column + 1, [])
  }

  /** The part of `yaml_parser_t` the scan moves: the buffer and the mark's column. */
  class Cursor {
    const text: Bytes
    var pos: nat
    var column: nat

    constructor (text: Bytes)
      ensures this.text == text && pos == 0 && column == 0
    {
      this.text := text;
      pos, column := 0, 0;
    }

    /** `skip` over a one-byte character. */
    method Skip()
      requires pos < |text|
      modifies this
      ensures pos == old(pos) + 1 && column == old(column) + 1
    {
      pos, column := pos + 1, column + 1;
    }

    /** `read`. */
    method Read() returns (t: Bytes)
      requires pos < |text| && 0 < Width(text[pos]) && pos + Width(text[pos]) <= |text|
      modifies this
      ensures pos == old(pos) + Width(text[old(pos)]) && column == old(column) + 1
      ensures t == text[old(pos)..old(pos) + Width(text[old(pos)])]
    {
      var w := Width(text[pos]);
      t := text[pos..pos + w];
      pos, column := pos + w, column + 1;
    }

    /** `read_line`, and `skip_line` for a caller that drops the result. */
    method ReadLine() returns (t: Bytes)
      requires IsBreak(text, pos)
      modifies this
      ensures t == BreakText(text, old(pos)) && pos == old(pos) + BreakWidth(text, old(pos)) && column == 0
    {
      var b := At(text, pos);
      if b == CR && At(text, pos + 1) == LF {
        t, pos := [LF], pos + 2;
      } else if b == CR || b == LF {
        t, pos := [LF], pos + 1;
      } else if b == 0xC2 {
        t, pos := [LF], pos + 2;
      } else {
        t, pos := text[pos..pos + 3], pos + 3;
      }
      column := 0;
    }

    /** The hex digits of an escape code. */
    method ReadHex(n: nat) returns (v: int)
      requires pos <= |text|
      modifies this
      ensures v == HexValue(text, old(pos), n)
      ensures v >= 0 ==> pos == old(pos) + n <= |text| && column == old(column) + n
    {
      v := 0;
      var k := 0;
      while k < n
        invariant 0 <= k <= n && v >= 0 && v == HexValue(text, old(pos), k)
        invariant pos == old(pos) && column == old(column)
      {
        var b := At(text, pos + k);
        if !IsHex(b) {
          NoHexValue(text, pos, k + 1, n);
          return -1;
        }
        v := v * 0x10 + AsHex(b);
        k := k + 1;
      }
      assert n > 0 ==> IsHex(At(text, pos + n - 1));
      pos, column := pos + n, column + n;
    }

    /** An escape sequence other than an escaped break. */
    method ReadEscape() returns (r: Scanned)
      requires pos <= |text| && At(text, pos) == BACKSLASH
      modifies this
      ensures r == ScanEscape(text, old(pos))
      ensures r.Scanned? ==> pos == r.end && column == old(column) + (pos - old(pos))
    {
      var e := EscapeOf(At(text, pos + 1));
      if e.Unknown? {
        return Refused(UnknownEscape);
      }
      Skip();
      Skip();
      if e.Literal? {
        return Scanned(e.text, pos);
      }
      var v := ReadHex(e.digits);
      if v < 0 {
        return Refused(ExpectedHex);
      }
      if !IsScalarValue(v) {
        return Refused(InvalidUnicode);
      }
      return Scanned(Encode(v), pos);
    }

    /** One turn of the loop over non-blank characters. */
    method ReadPiece(single: bool) returns (p: Piece)
      requires pos <= |text| && !IsBlankz(text, pos)
      modifies this
      ensures p == NextPiece(text, single, old(pos))
      ensures p.Piece? ==> pos == p.next && column == old(column) + p.columns
      ensures p.EscapedBreak? ==> pos == p.next && column == 0
      ensures p.Close? ==> pos == old(pos) && column == old(column)
    {
      var b := text[pos];
      if single && b == SQUOTE && At(text, pos + 1) == SQUOTE {
        Skip();
        Skip();
        return Piece([SQUOTE], pos, 2);
      }
      if b == Quote(single) {
        return Close;
      }
      if !single && b == BACKSLASH && IsBreak(text, pos + 1) {
        Skip();
        var _ := ReadLine();
        return EscapedBreak(pos);
      }
      if !single && b == BACKSLASH {
        var start := pos;
        var r := ReadEscape();
        if r.Refused? {
          return Bad(r.error);
        }
        return Piece(r.value, pos, pos - start);
      }
      if Width(b) == 0 || pos + Width(b) > |text| {
        return Bad(InvalidSequence);
      }
      var t := Read();
      return Piece(t, pos, 1);
    }

    /** The loop over non-blank characters; `broken` if an escaped break ended it. */
    method ReadText(single: bool, s0: Bytes) returns (s: Bytes, broken: bool, failed: ScanFailure)
      requires pos <= |text| && !IsZ(text, pos)
      modifies this
      ensures failed.Failure? ==> Text(text, single, old(pos), old(column), s0) == Refused(failed.error)
      ensures !failed.Failure? ==>
        && old(pos) <= pos <= |text|
        && (pos == old(pos) && At(text, pos) != Quote(single) ==> IsBlank(text, pos) || IsBreak(text, pos))
        && Text(text, single, old(pos), old(column), s0)
           == if At(text, pos) == Quote(single) then Scanned(s, pos + 1)
              else Gap(text, single, pos, column, s, [], [], [], broken)
    {
      s, broken := s0, false;
      while !IsBlankz(text, pos)
        invariant old(pos) <= pos <= |text| && (pos == old(pos) ==> !IsZ(text, pos))
        invariant Text(text, single, pos, column, s) == Text(text, single, old(pos), old(column), s0)
        decreases |text| - pos
      {
        var p := ReadPiece(single);
        match p {
          case Piece(t, _, _) =>
            s := s + t;
          case Close =>
            break;
          case EscapedBreak(_) =>
            broken := true;
            break;
          case Bad(e) =>
            return s, false, Failure(e);
        }
      }
      failed := NoFailure;
    }

    /** The loop over blanks and breaks; `t` is what they add to the scalar. */
    method ReadGap(single: bool, ghost s: Bytes, wasBroken: bool) returns (t: Bytes)
      requires pos <= |text|
      modifies this
      ensures old(pos) <= pos <= |text|
      ensures old(IsBlank(text, pos) || IsBreak(text, pos)) ==> old(pos) < pos
      ensures Gap(text, single, old(pos), old(column), s, [], [], [], wasBroken)
           == Lines(text, single, pos, column, s + t)
    {
      var broken := wasBroken;
      var lead: Bytes, trail: Bytes, blanks: Bytes := [], [], [];
      while IsBlank(text, pos) || IsBreak(text, pos)
        invariant old(pos) <= pos <= |text|
        invariant pos == old(pos) ==>
                    (old(IsBlank(text, pos) || IsBreak(text, pos)) <==> IsBlank(text, pos) || IsBreak(text, pos))
        invariant Gap(text, single, pos, column, s, lead, trail, blanks, broken)
               == Gap(text, single, old(pos), old(column), s, [], [], [], wasBroken)
        decreases |text| - pos
      {
        if IsBlank(text, pos) {
          if !broken {
            blanks := blanks + [text[pos]];
          }
          Skip();
        } else if !broken {
          blanks := [];
          var t := ReadLine();
          lead, broken := lead + t, true;
        } else {
          var t := ReadLine();
          trail := trail + t;
        }
      }
      t := if broken then Fold(lead, trail) else blanks;
    }

    /** `yaml_parser_scan_flow_scalar`. */
    method ScanFlowScalar(single: bool) returns (r: Scanned)
      requires At(text, pos) == Quote(single)
      modifies this
      ensures r == ScanQuoted(text, single, old(pos), old(column))
      ensures r.Scanned? ==> pos == r.end
    {
      Skip();
      var s: Bytes := [];
      while true
        invariant pos <= |text|
        invariant Lines(text, single, pos, column, s) == ScanQuoted(text, single, old(pos), old(column))
        decreases |text| - pos
      {
        if column == 0 && AtDocumentIndicator(text, pos) {
          return Refused(DocumentIndicator);
        }
        if IsZ(text, pos) {
          return Refused(EndOfStream);
        }
        var broken, failed;
        s, broken, failed := ReadText(single, s);
        if failed.Failure? {
          return Refused(failed.error);
        }
        if At(text, pos) == Quote(single) {
          Skip();
          return Scanned(s, pos);
        }
        var t := ReadGap(single, s, broken);
        s := s + t;
      }
    }
  }

  lemma NoHexValue(text: Bytes, pos: nat, k: nat, n: nat)
    requires k <= n && HexValue(text, pos, k) == -1
    ensures HexValue(text, pos, n) == -1
  {
  }
}
