/** Scanning the URI of a tag (`yaml_parser_scan_tag_uri`, `yaml_parser_scan_uri_escapes`), and the proof
  that it undoes the tag writer (section 2.1 of RFC 3986). */
module TagUriScanner {
  import opened YamlChars
  import opened QuotedWriter
  import opened QuotedText

  datatype TagError = NoEscapedOctet | BadLeadingOctet | BadTrailingOctet | EmptyUri | InvalidCharacter

  datatype ScannedTag = ScannedTag(uri: Bytes, end: nat) | RefusedTag(error: TagError)

  /** What the scanner takes for part of a URI: what a writer puts as it is, `!` and `%`. */
  predicate IsUriChar(b: byte) {
    || IsAlpha(b)
    || b == 0x21 || 0x24 <= b <= 0x2C || 0x2E <= b <= 0x2F || 0x3A <= b <= 0x3B
    || b == 0x3D || 0x3F <= b <= 0x40 || b == 0x5B || b == 0x5D || b == 0x7E
  }

  predicate IsEscapedOctet(text: Bytes, pos: nat) {
    At(text, pos) == PERCENT && IsHex(At(text, pos + 1)) && IsHex(At(text, pos + 2))
  }

  function Octet(text: Bytes, pos: nat): byte
    requires IsEscapedOctet(text, pos)
  {
    AsHex(At(text, pos + 1)) * 0x10 + AsHex(At(text, pos + 2))
  }

  /** `r` after `s`. */
  function After(s: Bytes, r: ScannedTag): ScannedTag {
    if r.ScannedTag? then r.(uri := s + r.uri) else r
  }

  /** `n` escaped octets from `pos` on, all of them trailing octets. */
  function TrailingOctets(text: Bytes, pos: nat, n: nat): (r: ScannedTag)
    ensures r.ScannedTag? ==> |r.uri| == n && r.end == pos + 3 * n && (n > 0 ==> r.end <= |text|)
    decreases n
  {
    if n == 0 then ScannedTag([], pos)
    else if !IsEscapedOctet(text, pos) then RefusedTag(NoEscapedOctet)
    else if !Trailing(Octet(text, pos)) then RefusedTag(BadTrailingOctet)
    else
      After([Octet(text, pos)], TrailingOctets(text, pos + 3, n - 1))
  }

  /** The escaped octets of one character. */
  function EscapedChar(text: Bytes, pos: nat): (r: ScannedTag)
    ensures r.ScannedTag? ==> pos < r.end <= |text|
  {
    if !IsEscapedOctet(text, pos) then RefusedTag(NoEscapedOctet)
    else
      var w := Width(Octet(text, pos));
      if w == 0 then RefusedTag(BadLeadingOctet)
      else
        After([Octet(text, pos)], TrailingOctets(text, pos + 3, w - 1))
  }

  /** The rest of a URI, of which `s` has been read. */
  function Uri(text: Bytes, pos: nat, s: Bytes): ScannedTag
    decreases |text| - pos
  {
    if !IsUriChar(At(text, pos)) then if s == [] then RefusedTag(EmptyUri) else ScannedTag(s, pos)
    else if At(text, pos) == PERCENT then
      match EscapedChar(text, pos)
      case RefusedTag(e) => RefusedTag(e)
      case ScannedTag(t, next) => Uri(text, next, s + t)
    else Uri(text, pos + 1, s + [text[pos]])
  }

  /** `yaml_parser_scan_uri_escapes`. */
  method ScanUriEscapes(text: Bytes, start: nat) returns (r: ScannedTag)
    ensures r == EscapedChar(text, start)
  {
    var s: Bytes := [];
    var pos := start;
    var w: nat := 1024;
    while w > 0
      invariant w == 1024 ==> pos == start && s == []
      invariant w != 1024 ==> w < 4 && s != [] && EscapedChar(text, start) == After(s, TrailingOctets(text, pos, w))
    {
      if !IsEscapedOctet(text, pos) {
        return RefusedTag(NoEscapedOctet);
      }
      var octet := Octet(text, pos);
      if w == 1024 {
        w := Width(octet);
        if w == 0 {
          return RefusedTag(BadLeadingOctet);
        }
      } else if !Trailing(octet) {
        return RefusedTag(BadTrailingOctet);
      }
      ghost var more := TrailingOctets(text, pos + 3, w - 1);
      assert more.ScannedTag? ==> s + ([octet] + more.uri) == s + [octet] + more.uri;
      s, pos, w := s + [octet], pos + 3, w - 1;
    }
    assert s + [] == s;
    r := ScannedTag(s, pos);
  }

  /** `yaml_parser_scan_tag_uri`, `head` being the handle that starts the tag. */
  method ScanTagUri(text: Bytes, start: nat, head: Bytes) returns (r: ScannedTag)
    requires start <= |text|
    ensures r == Uri(text, start, if |head| > 1 then head[1..] else [])
  {
    var s := if |head| > 1 then head[1..] else [];
    var pos := start;
    while IsUriChar(At(text, pos))
      invariant pos <= |text|
      invariant Uri(text, pos, s) == Uri(text, start, if |head| > 1 then head[1..] else [])
      decreases |text| - pos
    {
      if At(text, pos) == PERCENT {
        var t := ScanUriEscapes(text, pos);
        if t.RefusedTag? {
          return t;
        }
        s, pos := s + t.uri, t.end;
      } else {
        s, pos := s + [text[pos]], pos + 1;
      }
    }
    if s == [] {
      return RefusedTag(EmptyUri);
    }
    return ScannedTag(s, pos);
  }

  // What is scanned

  lemma {:induction false} TrailingScanned(text: Bytes, pos: nat, n: nat)
    ensures var r := TrailingOctets(text, pos, n); r.ScannedTag? ==> forall k | 0 <= k < n :: Trailing(r.uri[k])
    decreases n
  {
    hide Trailing, IsEscapedOctet, Octet;
    if n > 0 {
      TrailingScanned(text, pos + 3, n - 1);
    }
  }

  lemma CharScanned(text: Bytes, pos: nat)
    ensures var r := EscapedChar(text, pos); r.ScannedTag? ==> StartsWithOctets(r.uri) && |r.uri| == Width(r.uri[0])
  {
    hide Trailing, IsEscapedOctet, Octet, TrailingOctets, Width;
    var r := EscapedChar(text, pos);
    if r.ScannedTag? {
      TrailingScanned(text, pos + 3, Width(Octet(text, pos)) - 1);
    }
  }

  lemma OneMore(s: Bytes, c: Bytes)
    requires Octets(s) && StartsWithOctets(c) && |c| == Width(c[0])
    ensures Octets(s + c)
  {
    assert c[|c|..] == [];
    OctetsJoin(s, c);
  }

  lemma UriCharIsOctet(b: byte)
    requires IsUriChar(b)
    ensures StartsWithOctets([b]) && Width(b) == 1
  {
  }

  /** A tag that was scanned, from any text and after any handle, is made of lead octets and the trailing octets they
      ask for. */
  lemma {:induction false} ScannedIsOctets(text: Bytes, pos: nat, s: Bytes)
    requires pos <= |text| && Octets(s)
    ensures var r := Uri(text, pos, s); r.ScannedTag? ==> r.uri != [] && Octets(r.uri)
    decreases |text| - pos
  {
    hide Octets, StartsWithOctets, EscapedChar, IsUriChar, Width;
    if IsUriChar(At(text, pos)) && Uri(text, pos, s).ScannedTag? {
      if At(text, pos) == PERCENT {
        CharScanned(text, pos);
        var r := EscapedChar(text, pos);
        OneMore(s, r.uri);
        ScannedIsOctets(text, r.end, s + r.uri);
      } else {
        NulIsNoUriChar(text, pos);
        UriCharIsOctet(text[pos]);
        OneMore(s, [text[pos]]);
        ScannedIsOctets(text, pos + 1, s + [text[pos]]);
      }
    }
  }

  lemma NulIsNoUriChar(text: Bytes, pos: nat)
    requires IsUriChar(At(text, pos))
    ensures pos < |text| && At(text, pos) == text[pos]
  {
  }

  // Round trip

  lemma OctetRead(text: Bytes, pos: nat, b: byte)
    requires Holds(text, pos, [PERCENT, HexDigit(b / 0x10), HexDigit(b % 0x10)])
    ensures IsEscapedOctet(text, pos) && Octet(text, pos) == b
  {
    var s := [PERCENT, HexDigit(b / 0x10), HexDigit(b % 0x10)];
    assert text[pos] == s[0] && text[pos + 1] == s[1] && text[pos + 2] == s[2];
  }

  lemma {:induction false} PercentHolds(text: Bytes, pos: nat, s: Bytes, n: nat, k: nat)
    requires k < n <= |s| && Holds(text, pos, PercentText(s, n))
    ensures |PercentText(s, n)| == 3 * n
    ensures IsEscapedOctet(text, pos + 3 * k) && Octet(text, pos + 3 * k) == s[k]
  {
    var octet := [PERCENT, HexDigit(s[n - 1] / 0x10), HexDigit(s[n - 1] % 0x10)];
    HoldsParts(text, pos, PercentText(s, n - 1), octet);
    PercentLength(s, n - 1);
    if k == n - 1 {
      OctetRead(text, pos + 3 * k, s[k]);
    } else {
      PercentHolds(text, pos, s, n - 1, k);
    }
  }

  lemma {:induction false} PercentLength(s: Bytes, n: nat)
    requires n <= |s|
    ensures |PercentText(s, n)| == 3 * n
  {
    if n > 0 {
      PercentLength(s, n - 1);
    }
  }

  lemma TrailingStep(text: Bytes, pos: nat, n: nat)
    requires n > 0 && IsEscapedOctet(text, pos) && Trailing(Octet(text, pos))
    ensures TrailingOctets(text, pos, n) == After([Octet(text, pos)], TrailingOctets(text, pos + 3, n - 1))
  {
  }

  lemma NoneTrailing(text: Bytes, pos: nat, s: Bytes, n: nat)
    requires n <= |s|
    ensures TrailingOctets(text, pos, 0) == ScannedTag(s[n..n], pos)
  {
  }

  lemma {:induction false} TrailingRead(text: Bytes, pos: nat, s: Bytes, n: nat, k: nat)
    requires 1 <= k <= n <= |s| && Holds(text, pos, PercentText(s, n))
    requires forall i | 1 <= i < n :: Trailing(s[i])
    ensures TrailingOctets(text, pos + 3 * k, n - k) == ScannedTag(s[k..n], pos + 3 * n)
    decreases n - k
  {
    hide TrailingOctets, PercentText, IsEscapedOctet, Octet, Holds;
    if k == n {
      NoneTrailing(text, pos + 3 * k, s, n);
    } else {
      PercentHolds(text, pos, s, n, k);
      TrailingStep(text, pos + 3 * k, n - k);
      TrailingRead(text, pos, s, n, k + 1);
      assert [s[k]] + s[k + 1..n] == s[k..n];
    }
  }

  lemma AllTrail(v: Bytes)
    requires StartsWithOctets(v)
    ensures v != [] && 1 <= Width(v[0]) <= |v| && forall i | 1 <= i < Width(v[0]) :: Trailing(v[i])
  {
    hide Width, Trailing;
  }

  lemma CharRead(text: Bytes, pos: nat, trail: Bytes, end: nat)
    requires IsEscapedOctet(text, pos) && Width(Octet(text, pos)) > 0
    requires TrailingOctets(text, pos + 3, Width(Octet(text, pos)) - 1) == ScannedTag(trail, end)
    ensures At(text, pos) == PERCENT && EscapedChar(text, pos) == ScannedTag([Octet(text, pos)] + trail, end)
  {
    hide Octet, TrailingOctets, Width;
  }

  lemma PercentRead(text: Bytes, pos: nat, v: Bytes)
    requires StartsWithOctets(v) && Holds(text, pos, PercentText(v, Width(v[0])))
    ensures At(text, pos) == PERCENT && |PercentText(v, Width(v[0]))| == 3 * Width(v[0])
    ensures EscapedChar(text, pos) == ScannedTag(v[..Width(v[0])], pos + 3 * Width(v[0]))
  {
    hide *;
    AllTrail(v);
    var w := Width(v[0]);
    PercentHolds(text, pos, v, w, 0);
    TrailingRead(text, pos, v, w, 1);
    CharRead(text, pos, v[1..w], pos + 3 * w);
    assert [v[0]] + v[1..w] == v[..w];
  }

  /** The scanner reads back one character of the tag. */
  lemma TagCharRead(text: Bytes, pos: nat, v: Bytes, s: Bytes)
    requires StartsWithOctets(v) && Holds(text, pos, TagChar(v))
    ensures Uri(text, pos, s) == Uri(text, pos + |TagChar(v)|, s + v[..Width(v[0])])
  {
    hide PercentText, EscapedChar;
    if TagVerbatim(v[0]) {
      assert text[pos] == v[..Width(v[0])][0];
      assert [text[pos]] == v[..Width(v[0])];
    } else {
      PercentRead(text, pos, v);
    }
  }

  lemma TagParts(v: Bytes)
    requires Octets(v) && v != []
    ensures StartsWithOctets(v) && 1 <= Width(v[0]) <= |v| && Octets(v[Width(v[0])..])
    ensures var here, more := TagChar(v), TagText(v[Width(v[0])..]);
            TagText(v) == here + more && |TagText(v)| == |here| + |more|
  {
    hide TagChar, Trailing;
  }

  lemma TagEnds(text: Bytes, pos: nat, s: Bytes)
    requires s != [] && !IsUriChar(At(text, pos))
    ensures Uri(text, pos, s) == ScannedTag(s + [], pos)
  {
    assert s + [] == s;
  }

  /** One character is read, and `rest` of the tag is left. */
  lemma TagGoesOn(text: Bytes, pos: nat, v: Bytes, s: Bytes) returns (next: nat, rest: Bytes, s': Bytes)
    requires Octets(v) && Holds(text, pos, TagText(v)) && v != []
    ensures Octets(rest) && |rest| < |v| && s' != [] && s' + rest == s + v
    ensures Holds(text, next, TagText(rest)) && next + |TagText(rest)| == pos + |TagText(v)|
    ensures Uri(text, pos, s) == Uri(text, next, s')
  {
    TagParts(v);
    hide *;
    var w := Width(v[0]);
    next, rest, s' := pos + |TagChar(v)|, v[w..], s + v[..w];
    HoldsParts(text, pos, TagChar(v), TagText(rest));
    TagCharRead(text, pos, v, s);
    Rejoined(s, v, w);
  }

  lemma {:induction false} TagRead(text: Bytes, pos: nat, v: Bytes, s: Bytes)
    requires Octets(v) && Holds(text, pos, TagText(v)) && (s != [] || v != [])
    requires !IsUriChar(At(text, pos + |TagText(v)|))
    ensures Uri(text, pos, s) == ScannedTag(s + v, pos + |TagText(v)|)
    decreases |v|
  {
    if v == [] {
      TagEnds(text, pos, s);
    } else {
      hide *;
      var next, rest, s' := TagGoesOn(text, pos, v, s);
      TagRead(text, next, rest, s');
    }
  }

  lemma Rejoined(s: Bytes, v: Bytes, w: nat)
    requires w <= |v|
    ensures s + v[..w] + v[w..] == s + v
  {
  }

  lemma WholeTagRead(text: Bytes, pos: nat, v: Bytes)
    requires Octets(v) && Holds(text, pos, TagText(v)) && v != []
    requires !IsUriChar(At(text, pos + |TagText(v)|))
    ensures Uri(text, pos, []) == ScannedTag(v, pos + |TagText(v)|)
  {
    assert [] + v == v;
    TagRead(text, pos, v, []);
  }

  lemma TagReadAfter(before: Bytes, tag: Bytes, v: Bytes, text: Bytes)
    requires Octets(v) && v != [] && tag == TagText(v) && before + tag <= text
    requires !IsUriChar(At(text, |before + tag|))
    ensures Uri(text, |before|, []) == ScannedTag(v, |before + tag|)
  {
    HoldsSuffix(text, before, tag);
    WholeTagRead(text, |before|, v);
  }

  /** For every tag that can be scanned at all, scanning what the tag writer puts for it, up to a character that is no
      part of a URI, returns the tag. */
  lemma TagRoundTrip(o: Out, v: Bytes, needWhitespace: bool, text: Bytes)
    requires Octets(v) && v != []
    requires TagContent(o, v, needWhitespace).text <= text
    requires !IsUriChar(At(text, |TagContent(o, v, needWhitespace).text|))
    ensures var pos := |o.text| + if needWhitespace && !o.whitespace then 1 else 0;
            Uri(text, pos, []) == ScannedTag(v, |TagContent(o, v, needWhitespace).text|)
  {
    if needWhitespace && !o.whitespace {
      TagReadAfter(o.text + [SPACE], TagText(v), v, text);
    } else {
      TagReadAfter(o.text, TagText(v), v, text);
    }
  }
}
