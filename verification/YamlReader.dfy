/** The reader (readerc.go), for UTF-8 input: from the read handler's chunks through the raw buffer into the
  working buffer, one checked character at a time.

  `feed` is the read handler: how many bytes each call gives, at least one and no more than there is room for,
  and whether the last ones come with the end of the file. */
module YamlReader {
  import opened YamlChars

  const RAW_SIZE := 512
  const BUFFER_SIZE := RAW_SIZE * 3

  datatype Chunk = Chunk(size: nat, eof: bool)

  /** What the check of a character finds. */
  datatype Verdict = Bad | Incomplete | Char(width: nat, value: nat)

  /** The characters that may stand in a stream. */
  predicate Allowed(v: int) {
    || v == 0x09 || v == 0x0A || v == 0x0D || 0x20 <= v <= 0x7E || v == 0x85 || 0xA0 <= v <= 0xD7FF
    || 0xE000 <= v <= 0xFFFD || 0x10000 <= v <= 0x10FFFF
  }

  /** `s` starts with a character that is valid under section 3 of RFC 3629 and allowed. */
  predicate GoodChar(s: Bytes) {
    StartsWithChar(s) && Allowed(Decode(s))
  }

  /** Nothing but such characters. */
  predicate Text(s: Bytes)
    decreases |s|
  {
    s == [] || (GoodChar(s) && Text(s[Width(s[0])..]))
  }

  /** How many characters there are, going by the lead octets. */
  function Count(s: Bytes): nat
    requires Whole(s)
    decreases |s|
  {
    if s == [] then 0 else 1 + Count(s[Width(s[0])..])
  }

  function MarkLength(input: Bytes): nat {
    if IsBom(input) then 3 else 0
  }

  predicate IsUtf16(input: Bytes) {
    |input| >= 2 && ((input[0] == 0xFF && input[1] == 0xFE) || (input[0] == 0xFE && input[1] == 0xFF))
  }

  lemma BomBytes(input: Bytes)
    requires IsBom(input)
    ensures |input| >= 3
  {
  }

  /** Whether a character starts a text shows in the text's first bytes. */
  lemma SameStart(s: Bytes, t: Bytes)
    requires s <= t && s != [] && Width(s[0]) <= |s|
    ensures StartsWithChar(s) == StartsWithChar(t) && (StartsWithChar(s) ==> Decode(s) == Decode(t))
  {
    assert forall i | 0 <= i < |s| :: s[i] == t[i];
  }

  lemma {:induction false} TextGrows(s: Bytes, c: Bytes)
    requires Text(s) && GoodChar(c) && Width(c[0]) == |c|
    ensures Text(s + c)
    decreases |s|
  {
    if s == [] {
      assert s + c == c && c[|c|..] == [];
    } else {
      var w := Width(s[0]);
      SameStart(s, s + c);
      assert (s + c)[w..] == s[w..] + c;
      TextGrows(s[w..], c);
    }
  }

  lemma {:induction false} WholeGrows(s: Bytes, c: Bytes)
    requires Whole(s) && c != [] && Width(c[0]) == |c|
    ensures Whole(s + c) && Count(s + c) == Count(s) + 1
    decreases |s|
  {
    if s == [] {
      assert s + c == c && c[|c|..] == [];
    } else {
      var w := Width(s[0]);
      assert (s + c)[w..] == s[w..] + c;
      WholeGrows(s[w..], c);
    }
  }

  lemma CharFacts(s: Bytes)
    requires GoodChar(s)
    ensures s != [] && 1 <= Width(s[0]) <= |s|
    ensures Decode(s) <= 0x10FFFF && Encode(Decode(s)) == s[..Width(s[0])]
  {
    EncodeDecode(s);
  }

  lemma NextChar(decoded: Bytes, ahead: Bytes, s: Bytes)
    requires Text(decoded) && Whole(ahead) && GoodChar(s)
    ensures var c := s[..Width(s[0])]; Text(decoded + c) && Whole(ahead + c) && Count(ahead + c) == Count(ahead) + 1
  {
    var c := s[..Width(s[0])];
    SameStart(c, s);
    TextGrows(decoded, c);
    WholeGrows(ahead, c);
  }

  lemma WholeDrop(s: Bytes)
    requires Whole(s) && Count(s) > 0
    ensures s != [] && 1 <= Width(s[0]) <= |s|
    ensures var rest := s[Width(s[0])..]; Whole(rest) && Count(rest) == Count(s) - 1
  {
  }

  lemma Regrouped(a: Bytes, b: Bytes, w: nat)
    requires w <= |b|
    ensures a + b[..w] + b[w..] == a + b && b[..w] + b[w..] == b
  {
  }

  lemma Moved(s: Bytes, m: nat, i: nat, j: nat, w: nat)
    requires m <= i <= i + w <= j <= |s|
    ensures s[m..i + w] == s[m..i] + s[i..j][..w] && s[i + w..j] == s[i..j][w..]
  {
  }

  lemma Slices(s: Bytes, i: nat, j: nat, w: nat)
    requires i + w <= j <= |s|
    ensures s[i..i + w] == s[i..j][..w] && s[i + w..j] == s[i..j][w..]
  {
  }

  lemma SliceDrop(s: Bytes, i: nat, j: nat, w: nat)
    requires i + w <= j <= |s|
    ensures s[i..j][w..] == s[i + w..j]
  {
  }

  lemma Joined(a: Bytes, b: Bytes, d: Bytes, c: Bytes)
    requires a + b == d + []
    ensures a + (b + c) == d + c + []
  {
    assert a + (b + c) == a + b + c;
  }

  /** What cannot go on as text is not text. */
  lemma {:induction false} StuckIsNotText(s: Bytes, t: Bytes)
    requires Text(s) && t != [] && !GoodChar(t)
    ensures !Text(s + t)
    decreases |s|
  {
    if s == [] {
      assert s + t == t;
    } else {
      var w := Width(s[0]);
      assert (s + t)[w..] == s[w..] + t;
      StuckIsNotText(s[w..], t);
    }
  }

  lemma {:induction false} CountBounds(s: Bytes)
    requires Whole(s)
    ensures Count(s) <= |s| <= 4 * Count(s)
    decreases |s|
  {
    if s != [] {
      CountBounds(s[Width(s[0])..]);
    }
  }

  /** The lead octet's payload, then six bits of each octet that follows. */
  function Accumulated(s: Bytes, k: nat): nat
    requires 1 <= k <= |s| && 1 <= Width(s[0])
  {
    if k == 1 then
      (match Width(s[0]) case 1 => s[0] case 2 => s[0] - 0xC0 case 3 => s[0] - 0xE0 case _ => s[0] - 0xF0)
    else Accumulated(s, k - 1) * 0x40 + s[k - 1] % 0x40
  }

  lemma AccumulatedAll(s: Bytes)
    requires s != [] && 1 <= Width(s[0]) <= |s|
    ensures Accumulated(s, Width(s[0])) == Decode(s)
  {
    var w := Width(s[0]);
    if w >= 2 {
      assert Accumulated(s, 2) == Accumulated(s, 1) * 0x40 + s[1] % 0x40;
    }
    if w >= 3 {
      assert Accumulated(s, 3) == Accumulated(s, 2) * 0x40 + s[2] % 0x40;
    }
    if w >= 4 {
      assert Accumulated(s, 4) == Accumulated(s, 3) * 0x40 + s[3] % 0x40;
    }
  }

  lemma Starts(s: Bytes, whole: Bytes, i: nat, j: nat)
    requires i < j <= |whole| && s == whole[i..j]
    ensures s != [] && s <= whole[i..] && s[0] == whole[i..][0]
  {
  }

  lemma WidthBound(b: byte)
    ensures Width(b) <= 4
  {
  }

  /** An octet that no character starts with, or a character that is not all there. */
  lemma NoChar(s: Bytes)
    requires s != [] && (Width(s[0]) == 0 || |s| < Width(s[0]))
    ensures !GoodChar(s)
  {
  }

  /** The checks of a character that is all there. */
  lemma CharExactly(s: Bytes, t: Bytes, fine: bool, value: nat)
    requires s <= t && s != [] && 1 <= Width(s[0]) <= |s|
    requires fine <==> forall k | 1 <= k < Width(s[0]) :: Trailing(s[k])
    requires fine ==> value == Decode(s)
    ensures GoodChar(t) <==> GoodChar(s)
    ensures var w := Width(s[0]);
            GoodChar(s) <==> && fine && !(w == 2 && value < 0x80) && !(w == 3 && value < 0x800)
                             && !(w == 4 && value < 0x10000)
                             && !(0xD800 <= value <= 0xDFFF) && value <= 0x10FFFF && Allowed(value)
  {
    hide Decode, Allowed;
    SameStart(s, t);
  }

  class Reader {
    const input: Bytes
    const feed: nat -> Chunk
    const raw: array<byte>
    const buffer: array<byte>
    var calls: nat
    var inputPos: nat
    var rawPos: nat
    var rawLen: nat
    var bufferPos: nat
    var bufferLen: nat
    var unread: nat
    var offset: nat
    var eof: bool
    var known: bool             // the encoding is determined
    ghost var consumed: Bytes   // what the scanner has taken from the working buffer
    ghost var ended: bool       // the NUL has been placed

    constructor (input: Bytes, feed: nat -> Chunk)
      ensures Valid() && fresh(raw) && fresh(buffer) && this.input == input && consumed == [] && !ended
    {
      this.input, this.feed := input, feed;
      raw, buffer := new byte[RAW_SIZE], new byte[BUFFER_SIZE];
      calls, inputPos, rawPos, rawLen, bufferPos, bufferLen, unread, offset := 0, 0, 0, 0, 0, 0, 0, 0;
      eof, known, consumed, ended := false, false, [], false;
    }

    /** What is in the working buffer for the scanner. */
    ghost function Ahead(): Bytes
      requires bufferPos <= bufferLen <= buffer.Length
      reads this`bufferPos, this`bufferLen, buffer
    {
      buffer[bufferPos..bufferLen]
    }

    /** The raw buffer holds the input from `offset` up to where the handler is. */
    ghost predicate RawValid()
      reads this`rawPos, this`rawLen, this`offset, this`inputPos, this`eof, raw
    {
      && raw.Length == RAW_SIZE && rawPos <= rawLen <= RAW_SIZE
      && offset <= inputPos <= |input| && raw[rawPos..rawLen] == input[offset..inputPos]
      && (eof ==> inputPos == |input|)
    }

    /** The text so far without its mark. */
    ghost function Decoded(): Bytes
      requires MarkLength(input) <= offset <= |input|
      reads this`offset
    {
      input[MarkLength(input)..offset]
    }

    /** All that was ever placed is the input so far without its mark, and at the end one NUL. */
    ghost predicate BufferValid()
      reads this`bufferPos, this`bufferLen, this`unread, this`offset, this`consumed, this`ended, buffer
    {
      && buffer.Length == BUFFER_SIZE && bufferPos <= bufferLen <= BUFFER_SIZE
      && MarkLength(input) <= offset <= |input| && Text(Decoded())
      && consumed + Ahead() == Decoded() + (if ended then [NUL] else [])
      && Whole(Ahead()) && unread == Count(Ahead())
    }

    ghost predicate Valid()
      reads this, raw, buffer
    {
      && raw != buffer && RawValid()
      && (ended <==> eof && rawPos == rawLen)
      && (if known then BufferValid() && !IsUtf16(input)
          else
            && buffer.Length == BUFFER_SIZE && bufferPos == bufferLen == 0 && offset == 0 && unread == 0
            && consumed == [] && !eof)
    }

    /** The read handler. */
    method Read(room: nat) returns (n: nat, end: bool)
      requires inputPos <= |input| && room > 0
      modifies this`calls
      ensures n <= room && inputPos + n <= |input| && (n == 0 ==> end) && (end ==> inputPos + n == |input|)
    {
      var chunk := feed(calls);
      calls := calls + 1;
      var rest := |input| - inputPos;
      n := if rest == 0 then 0 else if chunk.size == 0 then 1 else chunk.size;
      n := if n > rest then rest else n;
      n := if n > room then room else n;
      end := n == rest && (n == 0 || chunk.eof);
    }

    /** Moves the remaining bytes to the beginning of the raw buffer. */
    method MoveRaw()
      requires RawValid()
      modifies this`rawPos, this`rawLen, raw
      ensures rawPos == 0 && rawLen == old(rawLen - rawPos) && raw[..rawLen] == old(raw[rawPos..rawLen])
    {
      if rawPos > 0 && rawPos < rawLen {
        forall i | 0 <= i < rawLen - rawPos {
          raw[i] := raw[rawPos + i];
        }
      }
      rawLen := rawLen - rawPos;
      rawPos := 0;
    }

    /** `yaml_parser_update_raw_buffer`. */
    method UpdateRaw()
      requires RawValid()
      modifies this`calls, this`inputPos, this`rawPos, this`rawLen, this`eof, raw
      ensures RawValid() && old(inputPos) <= inputPos <= |input| && (old(eof) ==> eof)
      ensures rawPos <= rawLen <= RAW_SIZE
      ensures old(eof) ==> inputPos == old(inputPos) && rawPos == old(rawPos) && rawLen == old(rawLen)
      ensures rawLen - rawPos == old(rawLen - rawPos) + (inputPos - old(inputPos))
      ensures !eof && old(rawLen - rawPos) < RAW_SIZE ==> inputPos > old(inputPos)
    {
      if rawPos == 0 && rawLen == raw.Length {
        return;
      }
      if eof {
        return;
      }
      ghost var left := raw[rawPos..rawLen];
      MoveRaw();
      ReadMore();
      assert raw[0..rawLen] == raw[..rawLen];
      assert input[offset..inputPos] == input[offset..old(inputPos)] + input[old(inputPos)..inputPos];
    }

    /** Has the handler fill what is free of the raw buffer. */
    method ReadMore()
      requires raw.Length == RAW_SIZE && rawLen < RAW_SIZE && inputPos <= |input|
      modifies this`calls, this`inputPos, this`rawLen, this`eof, raw
      ensures old(inputPos) <= inputPos <= |input| && rawLen - old(rawLen) == inputPos - old(inputPos)
      ensures rawLen <= RAW_SIZE && raw[..rawLen] == old(raw[..rawLen]) + input[old(inputPos)..inputPos]
      ensures if eof then inputPos == |input| else inputPos > old(inputPos)
    {
      var n, end := Read(raw.Length - rawLen);
      forall i | 0 <= i < n {
        raw[rawLen + i] := input[inputPos + i];
      }
      rawLen := rawLen + n;
      inputPos := inputPos + n;
      eof := end;
    }

    /** Moves the raw pointers. */
    method SkipRaw(width: nat)
      requires RawValid() && width <= rawLen - rawPos
      modifies this`rawPos, this`offset
      ensures RawValid() && rawPos == old(rawPos) + width && offset == old(offset) + width
    {
      SliceDrop(input, offset, inputPos, width);
      assert raw[rawPos + width..rawLen] == raw[rawPos..rawLen][width..];
      rawPos := rawPos + width;
      offset := offset + width;
    }

    /** Three bytes, or all there are, show the mark. */
    lemma MarkShows()
      requires RawValid() && offset == 0 && (eof || rawLen - rawPos >= 3)
      ensures rawPos <= rawLen <= raw.Length && |input| >= rawLen - rawPos
      ensures IsUtf16(input) <==>
              && rawLen - rawPos >= 2
              && (|| (raw[rawPos] == 0xFF && raw[rawPos + 1] == 0xFE)
                  || (raw[rawPos] == 0xFE && raw[rawPos + 1] == 0xFF))
      ensures IsBom(input) <==>
              && rawLen - rawPos >= 3
              && raw[rawPos] == 0xEF && raw[rawPos + 1] == 0xBB && raw[rawPos + 2] == 0xBF
    {
      ghost var s := raw[rawPos..rawLen];
      assert s == input[..inputPos];
      assert forall i | 0 <= i < |s| :: raw[rawPos + i] == s[i] == input[i];
    }

    lemma NoText()
      ensures Text([]) && Whole([]) && Count([]) == 0
    {
    }

    /** `yaml_parser_determine_encoding`; a UTF-16 mark leaves the UTF-8 path. */
    method DetermineEncoding() returns (ok: bool)
      requires Valid() && !known
      modifies this`calls, this`inputPos, this`rawPos, this`rawLen, this`eof, this`offset, this`known, raw
      ensures ok <==> !IsUtf16(input)
      ensures ok ==> known && RawValid() && BufferValid() && offset == MarkLength(input)
      ensures bufferPos == bufferLen == 0
    {
      while !eof && rawLen - rawPos < 3
        invariant RawValid() && offset == 0
        decreases |input| - inputPos, if eof then 0 else 1
      {
        UpdateRaw();
      }
      MarkShows();
      hide RawValid, IsUtf16, IsBom, Text;
      var avail := rawLen - rawPos;
      if avail >= 2 && ((raw[rawPos] == 0xFF && raw[rawPos + 1] == 0xFE)
                       || (raw[rawPos] == 0xFE && raw[rawPos + 1] == 0xFF)) {
        return false;
      }
      if avail >= 3 && raw[rawPos] == 0xEF && raw[rawPos + 1] == 0xBB && raw[rawPos + 2] == 0xBF {
        SkipRaw(3);
      }
      known := true;
      ok := true;
      assert Decoded() == [];
      NoText();
    }

    /** Moves the unread characters to the beginning of the working buffer. */
    method MoveUnread()
      requires BufferValid() && raw != buffer
      modifies this`bufferPos, this`bufferLen, buffer
      ensures BufferValid() && bufferPos == 0 && Ahead() == old(Ahead())
    {
      hide Text, Whole, Count, MarkLength, Decoded;
      if bufferPos > 0 && bufferPos < bufferLen {
        forall i | 0 <= i < bufferLen - bufferPos {
          buffer[i] := buffer[bufferPos + i];
        }
        assert buffer[0..bufferLen - bufferPos] == old(Ahead());
        bufferLen := bufferLen - bufferPos;
        bufferPos := 0;
      } else if bufferPos == bufferLen {
        assert Ahead() == [];
        bufferLen := 0;
        bufferPos := 0;
      }
    }

    /** The value of the character at the head of the raw buffer, if its trailing octets are ones. */
    method DecodeValue(width: nat) returns (ok: bool, value: nat)
      requires raw.Length == RAW_SIZE && rawPos < rawLen <= RAW_SIZE
      requires width == Width(raw[rawPos]) && 1 <= width <= rawLen - rawPos
      ensures var s := raw[rawPos..rawLen];
              && (ok <==> forall k | 1 <= k < width :: Trailing(s[k]))
              && (ok ==> value == Decode(s))
    {
      ghost var s := raw[rawPos..rawLen];
      var octet := raw[rawPos];
      value := match width case 1 => octet case 2 => octet - 0xC0 case 3 => octet - 0xE0 case _ => octet - 0xF0;
      var k := 1;
      while k < width
        invariant 1 <= k <= width && value == Accumulated(s, k)
        invariant forall i | 1 <= i < k :: Trailing(s[i])
      {
        octet := raw[rawPos + k];
        if !Trailing(octet) {
          return false, 0;
        }
        value := value * 0x40 + octet % 0x40;
        k := k + 1;
      }
      AccumulatedAll(s);
      ok := true;
    }

    method PutByte(b: byte)
      requires bufferPos <= bufferLen < buffer.Length
      modifies this`bufferLen, buffer
      ensures bufferLen == old(bufferLen) + 1 && Ahead() == old(Ahead()) + [b]
    {
      buffer[bufferLen] := b;
      bufferLen := bufferLen + 1;
    }

    /** Puts a character into the working buffer, and counts it. */
    method PutChar(value: nat)
      requires value <= 0x10FFFF && bufferPos <= bufferLen && bufferLen + |Encode(value)| <= buffer.Length
      modifies this`bufferLen, this`unread, buffer
      ensures bufferLen == old(bufferLen) + |Encode(value)| && unread == old(unread) + 1
      ensures Ahead() == old(Ahead()) + Encode(value)
    {
      PutBytes(value);
      unread := unread + 1;
    }

    method PutBytes(value: nat)
      requires value <= 0x10FFFF && bufferPos <= bufferLen && bufferLen + |Encode(value)| <= buffer.Length
      modifies this`bufferLen, buffer
      ensures bufferLen == old(bufferLen) + |Encode(value)| && Ahead() == old(Ahead()) + Encode(value)
    {
      if value <= 0x7F {
        PutByte(value);
      } else if value <= 0x7FF {
        PutTwo(0xC0 + value / 0x40, 0x80 + value % 0x40);
      } else if value <= 0xFFFF {
        PutByte(0xE0 + value / 0x1000);
        PutTwo(0x80 + value / 0x40 % 0x40, 0x80 + value % 0x40);
      } else {
        PutTwo(0xF0 + value / 0x40000, 0x80 + value / 0x1000 % 0x40);
        PutTwo(0x80 + value / 0x40 % 0x40, 0x80 + value % 0x40);
      }
      assert Ahead() == old(Ahead()) + Encode(value);
    }

    method PutTwo(a: byte, b: byte)
      requires bufferPos <= bufferLen && bufferLen + 2 <= buffer.Length
      modifies this`bufferLen, buffer
      ensures bufferLen == old(bufferLen) + 2 && Ahead() == old(Ahead()) + [a, b]
    {
      PutByte(a);
      PutByte(b);
    }

    /** The input cannot go on as text from here: whatever is next, it is no allowed character. */
    ghost predicate Stuck()
      reads this`offset
    {
      MarkLength(input) <= offset < |input| && Text(Decoded()) && !GoodChar(input[offset..])
    }

    /** Checks the raw buffer's next character. */
    method CheckNext() returns (v: Verdict)
      requires RawValid() && rawPos < rawLen && MarkLength(input) <= offset && Text(Decoded())
      ensures v.Bad? ==> Stuck()
      ensures v.Incomplete? ==> !eof && rawLen - rawPos < 4
      ensures v.Char? ==>
        var s := raw[rawPos..rawLen]; GoodChar(s) && v.width == Width(s[0]) && v.value == Decode(s)
    {
      hide Text, GoodChar, StartsWithChar, Decode, Allowed, Width, MarkLength, Trailing;
      ghost var s := raw[rawPos..rawLen];
      ghost var t := input[offset..];
      assert |s| == inputPos - offset;
      Starts(s, input, offset, inputPos);
      var width := Width(raw[rawPos]);
      if width == 0 {
        NoChar(t);
        return Bad;
      }
      if width > rawLen - rawPos {
        if eof {
          NoChar(t);
          return Bad;
        }
        WidthBound(raw[rawPos]);
        return Incomplete;
      }
      var fine, value := DecodeValue(width);
      CharExactly(s, t, fine, value);
      if !fine {
        return Bad;
      }
      if (width == 2 && value < 0x80) || (width == 3 && value < 0x800) || (width == 4 && value < 0x10000) {
        return Bad;
      }
      if (0xD800 <= value <= 0xDFFF) || value > 0x10FFFF || !Allowed(value) {
        return Bad;
      }
      v := Char(width, value);
    }

    /** With the raw buffer's next character the text so far is text, and so is what is placed. */
    lemma NextRaw(width: nat)
      requires RawValid() && BufferValid() && !ended && rawPos < rawLen
      requires var s := raw[rawPos..rawLen]; GoodChar(s) && width == Width(s[0])
      ensures var s := raw[rawPos..rawLen];
              && 1 <= width && rawPos + width <= rawLen <= raw.Length && offset + width <= |input|
              && Decode(s) <= 0x10FFFF && Encode(Decode(s)) == s[..width]
              && var text := input[MarkLength(input)..offset + width];
              && Text(text) && consumed + (Ahead() + s[..width]) == text + []
              && Whole(Ahead() + s[..width]) && Count(Ahead() + s[..width]) == unread + 1
    {
      hide Text, Whole, Count, Encode, StartsWithChar, GoodChar, Decode, MarkLength, Allowed, Width;
      ghost var s := raw[rawPos..rawLen];
      CharFacts(s);
      NextChar(Decoded(), Ahead(), s);
      Moved(input, MarkLength(input), offset, inputPos, width);
      Joined(consumed, Ahead(), Decoded(), s[..width]);
    }

    /** Moves the raw buffer's next character to the working buffer. */
    method TakeChar(width: nat, value: nat)
      requires RawValid() && BufferValid() && raw != buffer && !ended && rawPos < rawLen
      requires var s := raw[rawPos..rawLen]; GoodChar(s) && width == Width(s[0]) && value == Decode(s)
      requires bufferLen + width <= BUFFER_SIZE
      modifies this`rawPos, this`offset, this`bufferLen, this`unread, buffer
      ensures RawValid() && BufferValid() && old(Ahead()) <= Ahead() && width > 0
      ensures rawPos == old(rawPos) + width && bufferLen == old(bufferLen) + width
    {
      hide Text, Whole, Count, Encode, StartsWithChar, GoodChar, Decode, MarkLength, Allowed, Width, RawValid;
      NextRaw(width);
      SkipRaw(width);
      PutChar(value);
    }

    /** Decodes the raw buffer, as far as its characters are complete. */
    method DecodeRaw() returns (ok: bool)
      requires RawValid() && BufferValid() && raw != buffer && !ended
      requires bufferLen + (rawLen - rawPos) <= BUFFER_SIZE
      modifies this`rawPos, this`offset, this`bufferLen, this`unread, buffer
      ensures ok ==> RawValid() && BufferValid() && old(Ahead()) <= Ahead() && (eof ==> rawPos == rawLen)
      ensures ok ==> rawLen - rawPos < 4 && bufferLen - old(bufferLen) == rawPos - old(rawPos)
      ensures !ok ==> Stuck()
    {
      while rawPos != rawLen
        invariant RawValid() && BufferValid() && old(Ahead()) <= Ahead()
        invariant bufferLen + (rawLen - rawPos) == old(bufferLen + (rawLen - rawPos))
        decreases rawLen - rawPos
      {
        var v := CheckNext();
        match v {
          case Bad => return false;
          case Incomplete => break;
          case Char(width, value) => TakeChar(width, value);
        }
      }
      ok := true;
    }

    /** The stream without its mark. */
    ghost function Body(): Bytes {
      if IsBom(input) then input[3..] else input
    }

    lemma StuckMeansNotText()
      requires Stuck()
      ensures !Text(Body())
    {
      if IsBom(input) {
        BomBytes(input);
      }
      StuckIsNotText(Decoded(), input[offset..]);
      assert Body() == Decoded() + input[offset..];
    }

    /** Once the NUL is placed all of the input was text, and all of it was placed. */
    lemma EndedMeansText()
      requires Valid() && ended
      ensures !IsUtf16(input) && Text(Body()) && consumed + Ahead() == Body() + [NUL]
      ensures unread == 0 ==> Ahead() == []
    {
      if IsBom(input) {
        BomBytes(input);
      }
      assert Decoded() == Body();
    }

    /** Reads on until there are enough characters, or the end. */
    method Fill(length: nat) returns (ok: bool)
      requires raw != buffer && RawValid() && BufferValid() && !ended && bufferPos == 0
      requires 1 <= length && 4 * (length - 1) + RAW_SIZE + 1 <= BUFFER_SIZE && unread < length
      modifies this`calls, this`inputPos, this`rawPos, this`rawLen, this`eof, this`offset, this`bufferLen, this`unread,
        this`ended, raw, buffer
      ensures ok ==> RawValid() && BufferValid() && (ended <==> eof && rawPos == rawLen)
      ensures ok ==> bufferPos <= bufferLen <= buffer.Length && old(Ahead()) <= Ahead() && (unread >= length || ended)
      ensures !ok ==> Stuck()
    {
      hide Text, Whole, Count, MarkLength, GoodChar;
      var first := true;
      while unread < length
        invariant RawValid() && BufferValid() && !ended && old(Ahead()) <= Ahead() && bufferPos == 0
        invariant inputPos <= |input| && (!first ==> !eof && rawLen - rawPos < 4)
        invariant eof && rawPos == rawLen ==> unread < length
        decreases |input| - inputPos, first
      {
        ok := FillOnce(length, !first);
        first := false;
        if !ok || eof {
          return;
        }
      }
      ok := true;
    }

    lemma RoomLeft(length: nat)
      requires RawValid() && BufferValid() && bufferPos == 0 && unread < length
      ensures bufferLen <= 4 * (length - 1) && rawPos <= rawLen <= RAW_SIZE && inputPos <= |input|
    {
      hide Text, MarkLength, Decoded;
      CountBounds(Ahead());
    }

    /** One turn: more input if there is none or not enough of it, then what of it can be decoded. */
    method FillOnce(length: nat, again: bool) returns (ok: bool)
      requires raw != buffer && RawValid() && BufferValid() && !ended && bufferPos == 0
      requires 4 * (length - 1) + RAW_SIZE + 1 <= BUFFER_SIZE && unread < length
      requires again ==> !eof && rawLen - rawPos < 4
      modifies this`calls, this`inputPos, this`rawPos, this`rawLen, this`eof, this`offset, this`bufferLen, this`unread,
        this`ended, raw, buffer
      ensures ok ==> RawValid() && BufferValid() && old(Ahead()) <= Ahead() && (ended <==> eof)
      ensures ok && eof ==> rawPos == rawLen
      ensures ok && !eof ==> rawLen - rawPos < 4 && (again ==> inputPos > old(inputPos))
      ensures old(inputPos) <= inputPos <= |input|
      ensures !ok ==> Stuck()
    {
      hide BufferValid, RawValid, Stuck;
      RoomLeft(length);
      if again || rawPos == rawLen {
        UpdateRaw();
      }
      ok := DecodeRaw();
      if ok && eof {
        PlaceNul();
      }
    }

    /** The NUL that ends the text. */
    method PlaceNul()
      requires BufferValid() && !ended && bufferLen < BUFFER_SIZE
      modifies this`bufferLen, this`unread, this`ended, buffer
      ensures BufferValid() && ended && old(Ahead()) <= Ahead()
    {
      ghost var ahead := Ahead();
      WholeGrows(ahead, [NUL]);
      Joined(consumed, ahead, Decoded(), [NUL]);
      hide Text, Whole, MarkLength;
      PutByte(NUL);
      unread := unread + 1;
      ended := true;
      assert Decoded() + [NUL] + [] == Decoded() + [NUL];
    }

    /** What the scanner has not taken yet is moved to the front, and more is put behind it. */
    method Refill(length: nat) returns (ok: bool)
      requires raw != buffer && RawValid() && BufferValid() && !ended && unread < length
      requires 1 <= length && 4 * (length - 1) + RAW_SIZE + 1 <= BUFFER_SIZE
      modifies this`calls, this`inputPos, this`rawPos, this`rawLen, this`eof, this`offset, this`bufferPos,
        this`bufferLen, this`unread, this`ended, raw, buffer
      ensures ok ==> RawValid() && BufferValid() && (ended <==> eof && rawPos == rawLen)
      ensures old(bufferPos <= bufferLen <= buffer.Length)
      ensures ok ==> bufferPos <= bufferLen <= buffer.Length && old(Ahead()) <= Ahead() && (unread >= length || ended)
      ensures !ok ==> !Text(Body())
    {
      hide Text, MarkLength, Whole, Count, Stuck, Decoded;
      MoveUnread();
      ok := Fill(length);
      if !ok {
        StuckMeansNotText();
      }
    }

    /** `yaml_parser_update_buffer`: makes sure of `length` characters, unless the text ends before; what the
        scanner has not taken yet stays at the front.  It fails only on input that is no text. */
    method UpdateBuffer(length: nat) returns (ok: bool)
      requires Valid() && 1 <= length && 4 * (length - 1) + RAW_SIZE + 1 <= BUFFER_SIZE
      modifies this, raw, buffer
      ensures ok ==> Valid() && consumed == old(consumed) && old(Ahead()) <= Ahead() && (unread >= length || ended)
      ensures !ok ==> IsUtf16(input) || !Text(Body())
    {
      hide Text, MarkLength, Whole, Count, IsUtf16;
      if eof && rawPos == rawLen {
        return true;
      }
      if unread >= length {
        return true;
      }
      if !known {
        ok := DetermineEncoding();
        if !ok {
          return;
        }
      }
      ok := Refill(length);
    }

    /** `read` of the scanner: takes one character from the working buffer. */
    method Take() returns (c: Bytes)
      requires Valid() && unread > 0
      modifies this`bufferPos, this`unread, this`consumed
      ensures Valid() && unread == old(unread) - 1 && c != [] && consumed == old(consumed) + c
      ensures c + Ahead() == old(Ahead())
    {
      hide Text, MarkLength, IsUtf16, Decoded, RawValid, Whole, Count, Width;
      ghost var ahead := Ahead();
      WholeDrop(ahead);
      var w := Width(buffer[bufferPos]);
      c := buffer[bufferPos..bufferPos + w];
      Regrouped(consumed, ahead, w);
      Slices(buffer[..], bufferPos, bufferLen, w);
      consumed := consumed + c;
      bufferPos := bufferPos + w;
      unread := unread - 1;
    }
  }

  /** Reads a whole input, character by character: the outcome does not depend on the handler's chunks. */
  method ReadAll(input: Bytes, feed: nat -> Chunk) returns (ok: bool, text: Bytes)
    ensures var body := if IsBom(input) then input[3..] else input;
            && (ok <==> !IsUtf16(input) && Text(body))
            && (ok ==> text == body + [NUL])
  {
    var r := new Reader(input, feed);
    text := [];
    while true
      invariant r.Valid() && fresh(r) && fresh(r.raw) && fresh(r.buffer) && r.input == input && text == r.consumed
      decreases |input| + 1 - |text|
    {
      ok := r.UpdateBuffer(1);
      if !ok {
        return;
      }
      if r.unread == 0 {
        r.EndedMeansText();
        return;
      }
      var c := r.Take();
      text := text + c;
    }
  }
}