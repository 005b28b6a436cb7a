/** `encodeURIComponent`, the percent-encoding of section 2.1 of RFC 3986
    applied to the UTF-8 bytes (RFC 3629) of every character outside the
    unreserved set, and its inverse `decodeURIComponent`. The client uses the
    encoder to put a video URI into the proxy URL's query; the decoder is the
    reading the serverless platform applies before the handler sees `url`. */
module UriEncoding {
  import opened Wrappers

  /** The characters `encodeURIComponent` leaves alone: the unreserved set of
      section 2.3 of RFC 3986 plus `!`, `'`, `(`, `)` and `*`. */
  predicate Unreserved(c: char)
  {
    ('A' <= c <= 'Z') || ('a' <= c <= 'z') || ('0' <= c <= '9')
    || c == '-' || c == '_' || c == '.' || c == '!' || c == '~' || c == '*'
    || c == '\'' || c == '(' || c == ')'
  }

  function HexDigit(d: nat): (c: char)
    requires d < 16
    ensures Unreserved(c) && c != '%'
  {
    if d < 10 then (d + '0' as int) as char else (d - 10 + 'A' as int) as char
  }

  /** The value of a hexadecimal digit of either case. */
  function HexValue(c: char): (r: Option<nat>)
    ensures r.Some? ==> r.value < 16
  {
    if '0' <= c <= '9' then Some(c as int - '0' as int)
    else if 'A' <= c <= 'F' then Some(c as int - 'A' as int + 10)
    else if 'a' <= c <= 'f' then Some(c as int - 'a' as int + 10)
    else None
  }

  predicate IsByte(b: nat) { b < 256 }

  /** UTF-8 encoding of one Unicode scalar value (section 3 of RFC 3629). */
  function Utf8(c: char): (bs: seq<nat>)
    ensures 1 <= |bs| <= 4
    ensures forall i :: 0 <= i < |bs| ==> IsByte(bs[i])
  {
    var cp := c as int;
    if cp < 0x80 then [cp]
    else if cp < 0x800 then [0xC0 + cp / 64, 0x80 + cp % 64]
    else if cp < 0x10000 then [0xE0 + cp / 4096, 0x80 + (cp / 64) % 64, 0x80 + cp % 64]
    else [0xF0 + cp / 262144, 0x80 + (cp / 4096) % 64, 0x80 + (cp / 64) % 64, 0x80 + cp % 64]
  }

  /** Each byte written as `%` and two upper-case hexadecimal digits. */
  function PercentEncoded(bs: seq<nat>): (s: string)
    requires forall i :: 0 <= i < |bs| ==> IsByte(bs[i])
    ensures |s| == 3 * |bs|
    ensures forall i :: 0 <= i < |s| ==> Unreserved(s[i]) || s[i] == '%'
  {
    if bs == [] then ""
    else
      assert IsByte(bs[0]);
      ['%', HexDigit(bs[0] / 16), HexDigit(bs[0] % 16)] + PercentEncoded(bs[1..])
  }

  function EncodeChar(c: char): (s: string)
    ensures 1 <= |s|
    ensures forall i :: 0 <= i < |s| ==> Unreserved(s[i]) || s[i] == '%'
  {
    if Unreserved(c) then [c] else PercentEncoded(Utf8(c))
  }

  /** `encodeURIComponent(s)`. Its output holds only unreserved characters
      and `%`, so none of the delimiters `&`, `=`, `#`, `?` or `+` of a query
      string. */
  function EncodeURIComponent(s: string): (r: string)
    ensures forall i :: 0 <= i < |r| ==> Unreserved(r[i]) || r[i] == '%'
  {
    if s == [] then "" else EncodeChar(s[0]) + EncodeURIComponent(s[1..])
  }

  // ---------------------------------------------------------------- decoder

  /** The byte written as `%XY` at position `i`, if there is one. */
  function ByteAt(s: string, i: nat): (r: Option<nat>)
    ensures r.Some? ==> IsByte(r.value)
  {
    if i + 3 <= |s| && s[i] == '%' then
      match (HexValue(s[i + 1]), HexValue(s[i + 2]))
      case (Some(h), Some(l)) => Some(16 * h + l)
      case _ => None
    else None
  }

  /** The six payload bits of the continuation byte written at position `i`. */
  function ContinuationAt(s: string, i: nat): (r: Option<nat>)
    ensures r.Some? ==> r.value < 64
  {
    match ByteAt(s, i)
    case Some(b) => if 0x80 <= b < 0xC0 then Some(b - 0x80) else None
    case None => None
  }

  predicate IsScalar(cp: int) { 0 <= cp < 0xD800 || 0xE000 <= cp < 0x110000 }

  /** A code point if it is a scalar value of at least `min` (which rejects
      overlong forms). */
  function CharIf(cp: int, min: int): Option<char>
  {
    if min <= cp && IsScalar(cp) then Some(cp as char) else None
  }

  /** Decodes the character at the start of `s`: a literal character, or one to
      four `%XY` bytes forming a UTF-8 sequence. Returns the character and how
      many input characters it took; `None` is the URIError. */
  function DecodeUnit(s: string): (r: Option<(char, nat)>)
    requires s != []
    ensures r.Some? ==> 1 <= r.value.1 <= |s|
  {
    if s[0] != '%' then Some((s[0], 1))
    else match ByteAt(s, 0)
      case None => None
      case Some(b0) =>
        if b0 < 0x80 then Some((b0 as char, 3))
        else if 0xC0 <= b0 < 0xE0 then
          match ContinuationAt(s, 3)
          case Some(c1) =>
            (match CharIf((b0 - 0xC0) * 64 + c1, 0x80)
             case Some(c) => Some((c, 6))
             case None => None)
          case _ => None
        else if 0xE0 <= b0 < 0xF0 then
          match (ContinuationAt(s, 3), ContinuationAt(s, 6))
          case (Some(c1), Some(c2)) =>
            (match CharIf((b0 - 0xE0) * 4096 + c1 * 64 + c2, 0x800)
             case Some(c) => Some((c, 9))
             case None => None)
          case _ => None
        else if 0xF0 <= b0 < 0xF8 then
          match (ContinuationAt(s, 3), ContinuationAt(s, 6), ContinuationAt(s, 9))
          case (Some(c1), Some(c2), Some(c3)) =>
            (match CharIf((b0 - 0xF0) * 262144 + c1 * 4096 + c2 * 64 + c3, 0x10000)
             case Some(c) => Some((c, 12))
             case None => None)
          case _ => None
        else None
  }

  /** `decodeURIComponent(s)`; `None` stands for the URIError it throws. */
  function DecodeURIComponent(s: string): Option<string>
    decreases |s|
  {
    if s == [] then Some("")
    else match DecodeUnit(s)
      case None => None
      case Some((c, k)) =>
        match DecodeURIComponent(s[k..])
        case None => None
        case Some(t) => Some([c] + t)
  }

  // ----------------------------------------------------------------- proofs

  lemma HexRoundTrip(d: nat)
    requires d < 16
    ensures HexValue(HexDigit(d)) == Some(d)
  {
  }

  /** The `j`-th `%XY` group of an encoded byte string reads back as the
      `j`-th byte, whatever follows it. */
  lemma {:induction false} ByteAtPercentEncoded(bs: seq<nat>, t: string, j: nat)
    requires forall i :: 0 <= i < |bs| ==> IsByte(bs[i])
    requires j < |bs|
    ensures ByteAt(PercentEncoded(bs) + t, 3 * j) == Some(bs[j])
  {
    var s := PercentEncoded(bs) + t;
    if j == 0 {
      HexRoundTrip(bs[0] / 16);
      HexRoundTrip(bs[0] % 16);
    } else {
      var tail := PercentEncoded(bs[1..]) + t;
      assert s == s[..3] + tail;
      ByteAtPercentEncoded(bs[1..], t, j - 1);
      var k := 3 * (j - 1);
      assert 3 * j == k + 3;
      assert s[k + 3] == tail[k] && s[k + 4] == tail[k + 1] && s[k + 5] == tail[k + 2];
      assert |s| == |tail| + 3;
    }
  }

  lemma DivSplit64(cp: nat)
    ensures cp == (cp / 64) * 64 + cp % 64
    ensures cp / 4096 == (cp / 64) / 64
    ensures cp / 262144 == (cp / 4096) / 64
  {
  }

  /** The bytes of an encoded character read back from the encoding. */
  lemma EncodedBytes(c: char, t: string)
    requires !Unreserved(c)
    ensures forall j :: 0 <= j < |Utf8(c)| ==> ByteAt(EncodeChar(c) + t, 3 * j) == Some(Utf8(c)[j])
  {
    var bs := Utf8(c);
    forall j | 0 <= j < |bs| ensures ByteAt(EncodeChar(c) + t, 3 * j) == Some(bs[j]) {
      ByteAtPercentEncoded(bs, t, j);
    }
  }

  lemma DecodeTwoBytes(c: char, t: string)
    requires !Unreserved(c) && 0x80 <= c as int < 0x800
    ensures DecodeUnit(EncodeChar(c) + t) == Some((c, 6))
  {
    var s, cp := EncodeChar(c) + t, c as int;
    EncodedBytes(c, t);
    DivSplit64(cp);
    assert ByteAt(s, 0) == Some(0xC0 + cp / 64);
    assert ContinuationAt(s, 3) == Some(cp % 64);
  }

  lemma DecodeThreeBytes(c: char, t: string)
    requires !Unreserved(c) && 0x800 <= c as int < 0x10000
    ensures DecodeUnit(EncodeChar(c) + t) == Some((c, 9))
  {
    var s, cp := EncodeChar(c) + t, c as int;
    EncodedBytes(c, t);
    var bs := Utf8(c);
    assert ByteAt(s, 0) == Some(bs[0]) && ByteAt(s, 3) == Some(bs[1]) && ByteAt(s, 6) == Some(bs[2]);
    ThreeByteFields(cp);
    assert ContinuationAt(s, 3) == Some((cp / 64) % 64);
    assert ContinuationAt(s, 6) == Some(cp % 64);
  }

  /** The three bytes of a code point from U+0800 to U+FFFF carry its bits. */
  lemma ThreeByteFields(cp: nat)
    requires 0x800 <= cp < 0x10000
    ensures 0xE0 <= 0xE0 + cp / 4096 < 0xF0
    ensures (cp / 4096) * 4096 + ((cp / 64) % 64) * 64 + cp % 64 == cp
  {
    DivSplit64(cp);
    DivSplit64(cp / 64);
  }

  lemma DecodeFourBytes(c: char, t: string)
    requires !Unreserved(c) && 0x10000 <= c as int
    ensures DecodeUnit(EncodeChar(c) + t) == Some((c, 12))
  {
    var s, cp := EncodeChar(c) + t, c as int;
    EncodedBytes(c, t);
    var bs := Utf8(c);
    var c1, c2, c3 := (cp / 4096) % 64, (cp / 64) % 64, cp % 64;
    assert bs[0] == 0xF0 + cp / 262144 && bs[1] == 0x80 + c1 && bs[2] == 0x80 + c2 && bs[3] == 0x80 + c3;
    assert ByteAt(s, 0) == Some(bs[0]) && ByteAt(s, 3) == Some(bs[1]);
    assert ByteAt(s, 6) == Some(bs[2]) && ByteAt(s, 9) == Some(bs[3]);
    FourByteFields(cp);
    DecodeFourUnit(s, bs[0], c1, c2, c3);
  }

  /** Four well-formed `%XY` groups decode to the code point they spell. */
  lemma DecodeFourUnit(s: string, b0: nat, c1: nat, c2: nat, c3: nat)
    requires s != [] && s[0] == '%' && ByteAt(s, 0) == Some(b0) && 0xF0 <= b0 < 0xF8
    requires ContinuationAt(s, 3) == Some(c1) && ContinuationAt(s, 6) == Some(c2) && ContinuationAt(s, 9) == Some(c3)
    ensures DecodeUnit(s) == (match CharIf((b0 - 0xF0) * 262144 + c1 * 4096 + c2 * 64 + c3, 0x10000)
                              case Some(c) => Some((c, 12))
                              case None => None)
  {
  }

  /** The four bytes of a supplementary code point carry its bits. */
  lemma FourByteFields(cp: nat)
    requires 0x10000 <= cp < 0x110000
    ensures 0xF0 <= 0xF0 + cp / 262144 < 0xF8
    ensures (cp / 262144) * 262144 + ((cp / 4096) % 64) * 4096 + ((cp / 64) % 64) * 64 + cp % 64 == cp
  {
    DivSplit64(cp);
    DivSplit64(cp / 64);
    DivSplit64(cp / 4096);
  }

  /** Decoding the encoding of one character gives that character back and
      consumes exactly its encoding. */
  lemma DecodeUnitEncodeChar(c: char, t: string)
    ensures DecodeUnit(EncodeChar(c) + t) == Some((c, |EncodeChar(c)|))
  {
    var cp := c as int;
    if Unreserved(c) {
    } else if cp < 0x80 {
      EncodedBytes(c, t);
    } else if cp < 0x800 {
      DecodeTwoBytes(c, t);
    } else if cp < 0x10000 {
      DecodeThreeBytes(c, t);
    } else {
      DecodeFourBytes(c, t);
    }
  }

  /** `decodeURIComponent(encodeURIComponent(s)) === s`. */
  lemma {:induction false} DecodeEncode(s: string)
    ensures DecodeURIComponent(EncodeURIComponent(s)) == Some(s)
  {
    if s != [] {
      var e := EncodeURIComponent(s);
      var head := EncodeChar(s[0]);
      DecodeUnitEncodeChar(s[0], EncodeURIComponent(s[1..]));
      assert e[|head|..] == EncodeURIComponent(s[1..]);
      DecodeEncode(s[1..]);
      assert [s[0]] + s[1..] == s;
    }
  }

  /** Different URIs give different encodings. */
  lemma EncodeInjective(a: string, b: string)
    ensures EncodeURIComponent(a) == EncodeURIComponent(b) ==> a == b
  {
    DecodeEncode(a);
    DecodeEncode(b);
  }
}
