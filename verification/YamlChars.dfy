/** Bytes, characters and UTF-8, as both sides of the YAML engine see them.

  The source tests bytes with masks; a mask test on an octet is an interval test on its value, and
  that is how it is written here (`b & 0xE0 == 0xC0` is `0xC0 <= b < 0xE0`).  A scanner works on a
  buffer closed by a NUL, so a read past the end of a text yields NUL. */
module YamlChars {
  type byte = x: int | 0 <= x < 0x100
  type Bytes = seq<byte>

  const NUL: byte := 0
  const TAB: byte := 0x09
  const LF: byte := 0x0A
  const CR: byte := 0x0D
  const SPACE: byte := 0x20
  const DQUOTE: byte := 0x22
  const PERCENT: byte := 0x25
  const SQUOTE: byte := 0x27
  const DASH: byte := 0x2D
  const DOT: byte := 0x2E
  const BACKSLASH: byte := 0x5C

  function At(s: Bytes, i: int): byte {
    if 0 <= i < |s| then s[i] else NUL
  }

  /** How many bytes the character led by `b` takes; 0 if `b` leads none. */
  function Width(b: byte): nat {
    if b < 0x80 then 1
    else if 0xC0 <= b < 0xE0 then 2
    else if 0xE0 <= b < 0xF0 then 3
    else if 0xF0 <= b < 0xF8 then 4
    else 0
  }

  predicate IsAlpha(b: byte) {
    0x30 <= b <= 0x39 || 0x41 <= b <= 0x5A || 0x61 <= b <= 0x7A || b == 0x5F || b == 0x2D
  }

  predicate IsHex(b: byte) {
    0x30 <= b <= 0x39 || 0x41 <= b <= 0x46 || 0x61 <= b <= 0x66
  }

  function AsHex(b: byte): nat
    requires IsHex(b)
  {
    if 0x41 <= b <= 0x46 then b - 0x41 + 10 else if 0x61 <= b <= 0x66 then b - 0x61 + 10 else b - 0x30
  }

  /** The digit the writers put for a nibble. */
  function HexDigit(n: nat): byte
    requires n < 16
  {
    if n < 10 then n + 0x30 else n - 10 + 0x41
  }

  predicate IsAscii(s: Bytes, i: int) {
    At(s, i) <= 0x7F
  }

  predicate IsPrintable(s: Bytes, i: int) {
    var b, b1, b2 := At(s, i), At(s, i + 1), At(s, i + 2);
    || b == 0x0A
    || 0x20 <= b <= 0x7E
    || (b == 0xC2 && b1 >= 0xA0)
    || 0xC2 < b < 0xED
    || (b == 0xED && b1 < 0xA0)
    || b == 0xEE
    || (b == 0xEF && !(b1 == 0xBB && b2 == 0xBF) && !(b1 == 0xBF && (b2 == 0xBE || b2 == 0xBF)))
  }

  /** The source ignores its index argument here and looks at the start of the buffer. */
  predicate IsBom(s: Bytes) {
    At(s, 0) == 0xEF && At(s, 1) == 0xBB && At(s, 2) == 0xBF
  }

  predicate IsZ(s: Bytes, i: int) {
    At(s, i) == NUL
  }

  predicate IsSpace(s: Bytes, i: int) {
    At(s, i) == SPACE
  }

  predicate IsBlank(s: Bytes, i: int) {
    At(s, i) == SPACE || At(s, i) == TAB
  }

  predicate IsBreak(s: Bytes, i: int) {
    || At(s, i) == CR
    || At(s, i) == LF
    || (At(s, i) == 0xC2 && At(s, i + 1) == 0x85)
    || (At(s, i) == 0xE2 && At(s, i + 1) == 0x80 && (At(s, i + 2) == 0xA8 || At(s, i + 2) == 0xA9))
  }

  predicate IsBlankz(s: Bytes, i: int) {
    IsBlank(s, i) || IsBreak(s, i) || IsZ(s, i)
  }

  predicate Trailing(b: byte) {
    0x80 <= b < 0xC0
  }

  /** The code point of the character at the start of `s`: the payload bits of the lead octet, then
      six bits of each octet that follows. */
  function Decode(s: Bytes): nat {
    var lead: int, c1: int, c2: int, c3: int := At(s, 0), At(s, 1) % 0x40, At(s, 2) % 0x40, At(s, 3) % 0x40;
    match Width(lead)
    case 2 => (lead - 0xC0) * 0x40 + c1
    case 3 => (lead - 0xE0) * 0x1000 + c1 * 0x40 + c2
    case 4 => (lead - 0xF0) * 0x40000 + c1 * 0x1000 + c2 * 0x40 + c3
    case _ => lead
  }

  predicate IsScalarValue(v: int) {
    0 <= v <= 0x10FFFF && !(0xD800 <= v <= 0xDFFF)
  }

  /** The UTF-8 form of a code point, by the scanner's and the reader's shifts and masks. */
  function Encode(v: nat): Bytes
    requires v <= 0x10FFFF
  {
    if v <= 0x7F then [v]
    else if v <= 0x7FF then [0xC0 + v / 0x40, 0x80 + v % 0x40]
    else if v <= 0xFFFF then [0xE0 + v / 0x1000, 0x80 + v / 0x40 % 0x40, 0x80 + v % 0x40]
    else [0xF0 + v / 0x40000, 0x80 + v / 0x1000 % 0x40, 0x80 + v / 0x40 % 0x40, 0x80 + v % 0x40]
  }

  /** `s` starts with a complete character of RFC 3629, section 3. */
  predicate StartsWithChar(s: Bytes) {
    && s != []
    && var w := Width(s[0]);
    && 1 <= w <= |s|
    && (w >= 2 ==> Trailing(s[1]))
    && (w >= 3 ==> Trailing(s[2]))
    && (w >= 4 ==> Trailing(s[3]))
    && var v := Decode(s);
    && (w == 2 ==> v >= 0x80)
    && (w == 3 ==> v >= 0x800)
    && (w == 4 ==> v >= 0x10000)
    && IsScalarValue(v)
  }

  predicate ValidUtf8(s: Bytes)
    decreases |s|
  {
    s != [] ==> StartsWithChar(s) && ValidUtf8(s[Width(s[0])..])
  }

  /** The lengths that the lead octets tell add up. */
  predicate Whole(s: Bytes)
    decreases |s|
  {
    s == [] || (1 <= Width(s[0]) <= |s| && Whole(s[Width(s[0])..]))
  }

  /** The octets that the first lead octet asks for are there, and are trailing octets. */
  predicate StartsWithOctets(s: Bytes) {
    s != [] && 1 <= Width(s[0]) <= |s| && forall k | 1 <= k < Width(s[0]) :: Trailing(s[k])
  }

  /** Made of such: UTF-8 but for overlong forms, surrogates and numbers that are too great. */
  predicate Octets(s: Bytes): (r: bool)
    ensures r ==> Whole(s)
    decreases |s|
  {
    s == [] || (StartsWithOctets(s) && Octets(s[Width(s[0])..]))
  }

  lemma {:induction false} ValidIsOctets(s: Bytes)
    requires ValidUtf8(s)
    ensures Octets(s)
    decreases |s|
  {
    hide Decode;
    if s != [] {
      ValidIsOctets(s[Width(s[0])..]);
    }
  }

  lemma {:induction false} AsciiIsOctets(s: Bytes)
    requires forall i | 0 <= i < |s| :: s[i] < 0x80
    ensures Octets(s)
    decreases |s|
  {
    if s != [] {
      AsciiIsOctets(s[1..]);
      assert Width(s[0]) == 1;
    }
  }

  lemma {:induction false} OctetsJoin(a: Bytes, b: Bytes)
    requires Octets(a) && Octets(b)
    ensures Octets(a + b)
    decreases |a|
  {
    if a == [] {
      assert a + b == b;
    } else {
      var w := Width(a[0]);
      assert (a + b)[w..] == a[w..] + b && (a + b)[0] == a[0];
      assert forall k | 0 <= k < |a| :: (a + b)[k] == a[k];
      OctetsJoin(a[w..], b);
      hide Width, Trailing;
    }
  }

  /** Whole texts one after the other are a whole text; and what comes after a whole beginning is whole. */
  lemma {:induction false} WholeJoins(a: Bytes, b: Bytes)
    requires Whole(a)
    ensures Whole(a + b) <==> Whole(b)
    decreases |a|
  {
    if a == [] {
      assert a + b == b;
    } else {
      var w := Width(a[0]);
      assert (a + b)[w..] == a[w..] + b && (a + b)[0] == a[0];
      WholeJoins(a[w..], b);
      hide Width;
    }
  }

  /** Base-64 digits come back out of the number they make. */
  lemma Digits(a: nat, b: nat, c: nat, d: nat)
    requires b < 0x40 && c < 0x40 && d < 0x40
    ensures var v := a * 0x40000 + b * 0x1000 + c * 0x40 + d;
            v % 0x40 == d && v / 0x40 % 0x40 == c && v / 0x1000 % 0x40 == b && v / 0x40000 == a
  {
    var v := a * 0x40000 + b * 0x1000 + c * 0x40 + d;
    assert v / 0x40 == a * 0x1000 + b * 0x40 + c;
    assert v / 0x1000 == a * 0x40 + b;
  }

  lemma Encode3(a: nat, b: nat, c: nat)
    requires a < 0x10 && b < 0x40 && c < 0x40
    requires 0x800 <= a * 0x1000 + b * 0x40 + c
    ensures Encode(a * 0x1000 + b * 0x40 + c) == [0xE0 + a, 0x80 + b, 0x80 + c]
  {
    var v := a * 0x1000 + b * 0x40 + c;
    Digits(0, a, b, c);
    assert v / 0x1000 == a;
  }

  lemma Encode4(a: nat, b: nat, c: nat, d: nat)
    requires a < 0x08 && b < 0x40 && c < 0x40 && d < 0x40
    requires 0x10000 <= a * 0x40000 + b * 0x1000 + c * 0x40 + d <= 0x10FFFF
    ensures Encode(a * 0x40000 + b * 0x1000 + c * 0x40 + d) == [0xF0 + a, 0x80 + b, 0x80 + c, 0x80 + d]
  {
    Digits(a, b, c, d);
  }

  lemma Payload(b: byte)
    requires Trailing(b)
    ensures b % 0x40 == b - 0x80
  {
  }

  lemma DecodedSum(s: Bytes)
    requires StartsWithChar(s)
    ensures Width(s[0]) == 2 ==> Decode(s) == (s[0] - 0xC0) as int * 0x40 + (s[1] - 0x80)
    ensures Width(s[0]) == 3 ==>
              Decode(s) == (s[0] - 0xE0) as int * 0x1000 + (s[1] - 0x80) as int * 0x40 + (s[2] - 0x80)
    ensures Width(s[0]) == 4 ==>
              Decode(s) == (s[0] - 0xF0) as int * 0x40000 + (s[1] - 0x80) as int * 0x1000
              + (s[2] - 0x80) as int * 0x40 + (s[3] - 0x80)
  {
    forall b: byte | Trailing(b) ensures b % 0x40 == b - 0x80 {
      Payload(b);
    }
  }

  /** Decoding a well-formed character and encoding it again gives back its bytes. */
  lemma EncodeDecode(s: Bytes)
    requires StartsWithChar(s)
    ensures Encode(Decode(s)) == s[..Width(s[0])]
  {
    var w, v := Width(s[0]), Decode(s);
    DecodedSum(s);
    if w == 2 {
      Digits(0, 0, s[0] - 0xC0, s[1] - 0x80);
    } else if w == 3 {
      Encode3(s[0] - 0xE0, s[1] - 0x80, s[2] - 0x80);
      assert Encode(v) == [s[0], s[1], s[2]];
    } else if w == 4 {
      Encode4(s[0] - 0xF0, s[1] - 0x80, s[2] - 0x80, s[3] - 0x80);
      assert Encode(v) == [s[0], s[1], s[2], s[3]];
    }
  }

  /** The masks of the source and the intervals used here pick the same octets. */
  lemma MaskTests(b: bv8)
    ensures (b & 0x80 == 0x00) <==> b < 0x80
    ensures (b & 0xE0 == 0xC0) <==> 0xC0 <= b < 0xE0
    ensures (b & 0xF0 == 0xE0) <==> 0xE0 <= b < 0xF0
    ensures (b & 0xF8 == 0xF0) <==> 0xF0 <= b < 0xF8
    ensures (b & 0xC0 == 0x80) <==> 0x80 <= b < 0xC0
  {
  }
}
