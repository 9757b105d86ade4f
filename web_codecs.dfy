/**
 * The browser text codecs that a brush share link is built from:
 * encodeURIComponent and decodeURIComponent (ECMAScript, sections 19.2.6.4
 * and 19.2.6.5 of ECMA-262, which percent-encode the UTF-8 bytes of every
 * character outside the unreserved set of section 2.3 of RFC 3986 with the
 * escapes of its section 2.1), and btoa and atob (the forgiving-base64
 * algorithms of the HTML standard, over the alphabet of section 4 of
 * RFC 4648).
 *
 * Dafny characters are Unicode scalar values, so a JavaScript string with a
 * lone surrogate, on which encodeURIComponent throws, cannot be written down
 * here; every character of a Dafny string is one code point.
 */
module WebCodecs {
  import opened Types
  import opened Seqs

  type Byte = b: int | 0 <= b < 256

  /** Prefixes c onto a successful result and passes failure through. */
  function PrependTo(c: string, r: Option<string>): (q: Option<string>)
    ensures q.Some? <==> r.Some?
    ensures q.Some? ==> q.value == c + r.value
  {
    if r.Some? then Some(c + r.value) else None
  }

  // ---------------------------------------------------------------------
  // UTF-8 (RFC 3629, section 3)
  // ---------------------------------------------------------------------

  /** The UTF-8 bytes of one scalar value: one byte below 0x80, then two, three or four. */
  function Utf8(c: char): (r: seq<Byte>)
    ensures 1 <= |r| <= 4
    ensures |r| == 1 <==> (c as int) < 0x80
  {
    var v := c as int;
    var q1 := v / 64;
    var q2 := q1 / 64;
    var q3 := q2 / 64;
    if v < 0x80 then [v]
    else if v < 0x800 then [0xC0 + q1, 0x80 + v % 64]
    else if v < 0x10000 then [0xE0 + q2, 0x80 + q1 % 64, 0x80 + v % 64]
    else [0xF0 + q3, 0x80 + q2 % 64, 0x80 + q1 % 64, 0x80 + v % 64]
  }

  /** The number of leading one bits of a byte. */
  function LeadingOnes(b: Byte): (n: nat)
    ensures n <= 8
  {
    if b < 0x80 then 0
    else if b < 0xC0 then 1
    else if b < 0xE0 then 2
    else if b < 0xF0 then 3
    else if b < 0xF8 then 4
    else if b < 0xFC then 5
    else if b < 0xFE then 6
    else if b < 0xFF then 7
    else 8
  }

  predicate IsContinuation(b: Byte) {
    0x80 <= b < 0xC0
  }

  /**
   * The scalar value a lead byte and its continuation bytes encode, when they
   * are a well-formed UTF-8 sequence: every continuation byte of the form
   * 10xxxxxx, no overlong form, no surrogate and nothing above U+10FFFF.
   */
  function Utf8Value(bytes: seq<Byte>): (r: Option<char>)
    requires 2 <= |bytes| <= 4 && LeadingOnes(bytes[0]) == |bytes|
  {
    if exists i :: 1 <= i < |bytes| && !IsContinuation(bytes[i]) then None
    else
      var n := |bytes|;
      var v: int :=
        if n == 2 then (bytes[0] as int - 0xC0) * 64 + (bytes[1] as int - 0x80)
        else if n == 3 then ((bytes[0] as int - 0xE0) * 64 + (bytes[1] as int - 0x80)) * 64 + (bytes[2] as int - 0x80)
        else (((bytes[0] as int - 0xF0) * 64 + (bytes[1] as int - 0x80)) * 64 + (bytes[2] as int - 0x80)) * 64 + (bytes[3] as int - 0x80);
      var least: int := if n == 2 then 0x80 else if n == 3 then 0x800 else 0x10000;
      if v < least || (0xD800 <= v < 0xE000) || v > 0x10FFFF then None
      else Some(v as char)
  }

  /** Decoding the UTF-8 bytes of a character of two or more bytes gives the character back. */
  lemma Utf8RoundTrip(c: char)
    requires |Utf8(c)| >= 2
    ensures LeadingOnes(Utf8(c)[0]) == |Utf8(c)|
    ensures Utf8Value(Utf8(c)) == Some(c)
  {
    var v := c as int;
    var q1 := v / 64;
    var q2 := q1 / 64;
    var q3 := q2 / 64;
    assert v == q1 * 64 + v % 64;
    assert q1 == q2 * 64 + q1 % 64;
    assert q2 == q3 * 64 + q2 % 64;
  }

  // ---------------------------------------------------------------------
  // Percent-encoding (ECMA-262 section 19.2.6, RFC 3986 section 2.1)
  // ---------------------------------------------------------------------

  /** An upper-case hexadecimal digit, the form encodeURIComponent emits. */
  function HexDigit(d: int): (c: char)
    requires 0 <= d < 16
    ensures '0' <= c <= '9' || 'A' <= c <= 'F'
  {
    if d < 10 then ('0' as int + d) as char else ('A' as int + d - 10) as char
  }

  /** The value of a hexadecimal digit of either case, as decodeURIComponent reads it. */
  function HexValue(c: char): (r: Option<int>)
    ensures r.Some? ==> 0 <= r.value < 16
    ensures r.Some? <==> ('0' <= c <= '9' || 'A' <= c <= 'F' || 'a' <= c <= 'f')
  {
    if '0' <= c <= '9' then Some(c as int - '0' as int)
    else if 'A' <= c <= 'F' then Some(c as int - 'A' as int + 10)
    else if 'a' <= c <= 'f' then Some(c as int - 'a' as int + 10)
    else None
  }

  lemma HexRoundTrip(d: int)
    requires 0 <= d < 16
    ensures HexValue(HexDigit(d)) == Some(d)
  {
  }

  /** The characters encodeURIComponent leaves as they are. */
  predicate Unreserved(c: char) {
    'A' <= c <= 'Z' || 'a' <= c <= 'z' || '0' <= c <= '9' ||
    c == '-' || c == '_' || c == '.' || c == '!' || c == '~' || c == '*' || c == '\'' || c == '(' || c == ')'
  }

  function PercentEncode(bytes: seq<Byte>): (r: string)
    ensures |r| == 3 * |bytes|
  {
    if bytes == [] then []
    else ['%', HexDigit(bytes[0] / 16), HexDigit(bytes[0] % 16)] + PercentEncode(bytes[1..])
  }

  function EncodeChar(c: char): string {
    if Unreserved(c) then [c] else PercentEncode(Utf8(c))
  }

  /** encodeURIComponent: each character is kept when unreserved and is otherwise replaced by the escapes of its UTF-8 bytes. */
  function EncodeURIComponent(s: string): string {
    if s == [] then [] else EncodeChar(s[0]) + EncodeURIComponent(s[1..])
  }

  /** The character classes encodeURIComponent's output is drawn from. */
  predicate UriOutputChar(c: char) {
    Unreserved(c) || c == '%' || 'A' <= c <= 'F'
  }

  /** The output is made of unreserved characters, '%' and upper-case hexadecimal digits only, so it is pure ASCII. */
  lemma {:induction false} EncodeURIComponentAscii(s: string)
    ensures forall i :: 0 <= i < |EncodeURIComponent(s)| ==> UriOutputChar(EncodeURIComponent(s)[i])
    ensures forall i :: 0 <= i < |EncodeURIComponent(s)| ==> EncodeURIComponent(s)[i] as int < 0x80
  {
    if s != [] {
      EncodeURIComponentAscii(s[1..]);
      PercentEncodeChars(Utf8(s[0]));
    }
  }

  lemma {:induction false} PercentEncodeChars(bytes: seq<Byte>)
    ensures forall i :: 0 <= i < |PercentEncode(bytes)| ==> UriOutputChar(PercentEncode(bytes)[i])
  {
    if bytes != [] {
      PercentEncodeChars(bytes[1..]);
    }
  }

  /** A string of unreserved characters is its own encoding. */
  lemma {:induction false} EncodeUnreservedIdentity(s: string)
    requires forall i :: 0 <= i < |s| ==> Unreserved(s[i])
    ensures EncodeURIComponent(s) == s
  {
    if s != [] {
      EncodeUnreservedIdentity(s[1..]);
      assert s == [s[0]] + s[1..];
    }
  }

  /** The byte of a "%XY" escape at the front of s, when s starts with one. */
  function EscapeAt(s: string): (r: Option<Byte>)
  {
    if |s| >= 3 && s[0] == '%' && HexValue(s[1]).Some? && HexValue(s[2]).Some? then
      Some(16 * HexValue(s[1]).value + HexValue(s[2]).value)
    else None
  }

  /** The continuation bytes: m escapes in a row at the front of s. */
  function Continuations(s: string, m: nat): (r: Option<seq<Byte>>)
    ensures r.Some? ==> |r.value| == m && |s| >= 3 * m
  {
    if m == 0 then Some([])
    else match EscapeAt(s)
      case None => None
      case Some(b) =>
        match Continuations(s[3..], m - 1)
        case None => None
        case Some(bs) => Some([b] + bs)
  }

  /**
   * decodeURIComponent: every escape is decoded (its reserved set is empty).
   * A '%' not followed by two hexadecimal digits, a lead byte with one or
   * more than four leading ones, a missing continuation escape and a
   * malformed UTF-8 sequence each throw a URIError, modelled as None; the
   * length pre-check of ECMA-262 throws in exactly the cases where one of the
   * continuation escapes is cut short.
   */
  function DecodeURIComponent(s: string): (r: Option<string>)
    decreases |s|
  {
    if s == [] then Some([])
    else if s[0] != '%' then PrependTo([s[0]], DecodeURIComponent(s[1..]))
    else match EscapeAt(s)
      case None => None
      case Some(b) =>
        if b < 0x80 then PrependTo([b as char], DecodeURIComponent(s[3..]))
        else
          var n := LeadingOnes(b);
          if n == 1 || n > 4 then None
          else match Continuations(s[3..], n - 1)
            case None => None
            case Some(cont) =>
              match Utf8Value([b] + cont)
              case None => None
              case Some(c) => PrependTo([c], DecodeURIComponent(s[3 * n..]))
  }

  /** An upper-case escape of a byte reads back as that byte. */
  lemma EscapeOfByte(b: Byte, tail: string)
    ensures EscapeAt(['%', HexDigit(b / 16), HexDigit(b % 16)] + tail) == Some(b)
  {
    HexRoundTrip(b / 16);
    HexRoundTrip(b % 16);
  }

  /** The encoding of some bytes starts with the escape of the first one. */
  lemma EncodedEscape(bytes: seq<Byte>, rest: string)
    requires bytes != []
    ensures EscapeAt(PercentEncode(bytes) + rest) == Some(bytes[0])
    ensures (PercentEncode(bytes) + rest)[3..] == PercentEncode(bytes[1..]) + rest
  {
    var b := bytes[0];
    var head := ['%', HexDigit(b / 16), HexDigit(b % 16)];
    var tail := PercentEncode(bytes[1..]) + rest;
    assert PercentEncode(bytes) == head + PercentEncode(bytes[1..]);
    AppendAssoc(head, PercentEncode(bytes[1..]), rest);
    EscapeOfByte(b, tail);
  }

  lemma {:induction false} ContinuationsOfEncoding(bytes: seq<Byte>, rest: string)
    ensures Continuations(PercentEncode(bytes) + rest, |bytes|) == Some(bytes)
  {
    if bytes != [] {
      EncodedEscape(bytes, rest);
      ContinuationsOfEncoding(bytes[1..], rest);
      assert [bytes[0]] + bytes[1..] == bytes;
    }
  }

  /** Decoding the escapes of the UTF-8 bytes of c in front of any text yields c in front of the decoded text. */
  lemma DecodeEscapes(bytes: seq<Byte>, c: char, rest: string)
    requires 1 <= |bytes| <= 4
    requires |bytes| == 1 ==> bytes[0] == c as int < 0x80
    requires |bytes| >= 2 ==> LeadingOnes(bytes[0]) == |bytes| && Utf8Value(bytes) == Some(c)
    ensures DecodeURIComponent(PercentEncode(bytes) + rest) == PrependTo([c], DecodeURIComponent(rest))
  {
    var s := PercentEncode(bytes) + rest;
    var n := |bytes|;
    var b := bytes[0];
    EncodedEscape(bytes, rest);
    if n == 1 {
      assert (b as char) == c;
    } else {
      ContinuationsOfEncoding(bytes[1..], rest);
      assert [b] + bytes[1..] == bytes;
      assert s[3 * n..] == rest;
    }
  }

  /** Decoding the encoding of one character in front of any text yields that character in front of the decoded text. */
  lemma DecodeEncodeChar(c: char, rest: string)
    ensures DecodeURIComponent(EncodeChar(c) + rest) == PrependTo([c], DecodeURIComponent(rest))
  {
    if Unreserved(c) {
      var s := EncodeChar(c) + rest;
      assert s[0] == c && s[1..] == rest;
    } else {
      var bytes := Utf8(c);
      if |bytes| >= 2 {
        Utf8RoundTrip(c);
      }
      DecodeEscapes(bytes, c, rest);
    }
  }

  /** decodeURIComponent undoes encodeURIComponent on every string. */
  lemma {:induction false} UriRoundTrip(s: string)
    ensures DecodeURIComponent(EncodeURIComponent(s)) == Some(s)
  {
    if s != [] {
      UriRoundTrip(s[1..]);
      DecodeEncodeChar(s[0], EncodeURIComponent(s[1..]));
      assert [s[0]] + s[1..] == s;
    }
  }

  // ---------------------------------------------------------------------
  // Base64 (RFC 4648 section 4; btoa and atob of the HTML standard)
  // ---------------------------------------------------------------------

  /** The character of a six-bit value in the Base64 alphabet. */
  function Base64Char(v: int): (c: char)
    requires 0 <= v < 64
  {
    if v < 26 then ('A' as int + v) as char
    else if v < 52 then ('a' as int + v - 26) as char
    else if v < 62 then ('0' as int + v - 52) as char
    else if v == 62 then '+'
    else '/'
  }

  /** The six-bit value of a Base64 alphabet character. */
  function Base64Value(c: char): (r: Option<int>)
    ensures r.Some? ==> 0 <= r.value < 64
    ensures r.Some? <==> ('A' <= c <= 'Z' || 'a' <= c <= 'z' || '0' <= c <= '9' || c == '+' || c == '/')
  {
    if 'A' <= c <= 'Z' then Some(c as int - 'A' as int)
    else if 'a' <= c <= 'z' then Some(c as int - 'a' as int + 26)
    else if '0' <= c <= '9' then Some(c as int - '0' as int + 52)
    else if c == '+' then Some(62)
    else if c == '/' then Some(63)
    else None
  }

  lemma Base64CharValue(v: int)
    requires 0 <= v < 64
    ensures Base64Value(Base64Char(v)) == Some(v)
  {
  }

  predicate SixBit(v: seq<int>) {
    forall i :: 0 <= i < |v| ==> 0 <= v[i] < 64
  }

  /** The four six-bit values of three bytes. */
  function Group(b0: Byte, b1: Byte, b2: Byte): (r: seq<int>)
    ensures |r| == 4 && SixBit(r)
  {
    [b0 / 4, (b0 % 4) * 16 + b1 / 16, (b1 % 16) * 4 + b2 / 64, b2 % 64]
  }

  /** The six-bit groups of the bytes: four per three bytes, and two or three for a final group of one or two bytes, zero-filled. */
  function Sextets(b: seq<Byte>): (r: seq<int>)
    ensures SixBit(r)
  {
    if |b| == 0 then []
    else if |b| == 1 then [b[0] / 4, (b[0] % 4) * 16]
    else if |b| == 2 then [b[0] / 4, (b[0] % 4) * 16 + b[1] / 16, (b[1] % 16) * 4]
    else Group(b[0], b[1], b[2]) + Sextets(b[3..])
  }

  lemma {:induction false} SextetsLength(b: seq<Byte>)
    ensures |Sextets(b)| == 4 * (|b| / 3) + (if |b| % 3 == 0 then 0 else |b| % 3 + 1)
  {
    if |b| >= 3 {
      SextetsLength(b[3..]);
    }
  }

  function Alphabet(v: seq<int>): (r: string)
    requires SixBit(v)
    ensures |r| == |v|
  {
    seq(|v|, i requires 0 <= i < |v| => Base64Char(v[i]))
  }

  /** Each character of the alphabet string reads back as its six-bit value. */
  lemma AlphabetValues(v: seq<int>)
    requires SixBit(v)
    ensures forall i :: 0 <= i < |v| ==> Base64Value(Alphabet(v)[i]) == Some(v[i])
  {
    forall i | 0 <= i < |v| ensures Base64Value(Alphabet(v)[i]) == Some(v[i]) {
      Base64CharValue(v[i]);
    }
  }

  /** The '=' padding that brings the output to a multiple of four characters. */
  function Padding(n: nat): string {
    if n % 3 == 1 then "==" else if n % 3 == 2 then "=" else ""
  }

  function Base64Encode(b: seq<Byte>): string {
    Alphabet(Sextets(b)) + Padding(|b|)
  }

  /** Every character is a single byte (a code point below 256). */
  predicate Latin1(s: string) {
    forall i :: 0 <= i < |s| ==> s[i] as int < 256
  }

  function Latin1Bytes(s: string): (r: seq<Byte>)
    requires Latin1(s)
    ensures |r| == |s|
  {
    seq(|s|, i requires 0 <= i < |s| => s[i] as int)
  }

  function BytesToString(b: seq<Byte>): (r: string)
    ensures |r| == |b|
  {
    seq(|b|, i requires 0 <= i < |b| => b[i] as char)
  }

  /** btoa: the Base64 encoding of the string's bytes; a character above U+00FF throws (None). */
  function Btoa(s: string): (r: Option<string>)
    ensures r.Some? <==> Latin1(s)
  {
    if Latin1(s) then Some(Base64Encode(Latin1Bytes(s))) else None
  }

  predicate Base64OutputChar(c: char) {
    Base64Value(c).Some? || c == '='
  }

  /** btoa's output uses only the RFC 4648 alphabet and '=', and its length is a multiple of four. */
  lemma BtoaOutput(s: string)
    requires Btoa(s).Some?
    ensures |Btoa(s).value| % 4 == 0
    ensures forall i :: 0 <= i < |Btoa(s).value| ==> Base64OutputChar(Btoa(s).value[i])
  {
    var b := Latin1Bytes(s);
    var v := Sextets(b);
    var a := Alphabet(v);
    var pad := Padding(|b|);
    SextetsLength(b);
    AlphabetValues(v);
    assert Btoa(s).value == a + pad;
    assert forall i :: 0 <= i < |pad| ==> pad[i] == '=';
  }

  /** The ASCII whitespace the forgiving-base64 decoder strips: tab, line feed, form feed, carriage return and space. */
  predicate IsAsciiWhitespace(c: char) {
    c == '\t' || c == '\n' || c == '\U{000C}' || c == '\r' || c == ' '
  }

  function RemoveWhitespace(s: string): (r: string)
    ensures forall i :: 0 <= i < |r| ==> !IsAsciiWhitespace(r[i])
  {
    if s == [] then []
    else if IsAsciiWhitespace(s[0]) then RemoveWhitespace(s[1..])
    else [s[0]] + RemoveWhitespace(s[1..])
  }

  lemma {:induction false} RemoveWhitespaceNone(s: string)
    requires forall i :: 0 <= i < |s| ==> !IsAsciiWhitespace(s[i])
    ensures RemoveWhitespace(s) == s
  {
    if s != [] {
      RemoveWhitespaceNone(s[1..]);
      assert s == [s[0]] + s[1..];
    }
  }

  /** One or two trailing '=' removed. */
  function StripPadding(d: string): string {
    if |d| >= 2 && d[|d| - 2] == '=' && d[|d| - 1] == '=' then d[..|d| - 2]
    else if |d| >= 1 && d[|d| - 1] == '=' then d[..|d| - 1]
    else d
  }

  /** The bytes of the six-bit groups, discarding the bits left over after the last whole byte. */
  function SextetBytes(v: seq<int>): (r: seq<Byte>)
    requires SixBit(v) && |v| % 4 != 1
  {
    if |v| == 0 then []
    else if |v| == 2 then [v[0] * 4 + v[1] / 16]
    else if |v| == 3 then [v[0] * 4 + v[1] / 16, (v[1] % 16) * 16 + v[2] / 4]
    else [v[0] * 4 + v[1] / 16, (v[1] % 16) * 16 + v[2] / 4, (v[2] % 4) * 64 + v[3]] + SextetBytes(v[4..])
  }

  predicate AllBase64(d: string) {
    forall i :: 0 <= i < |d| ==> Base64Value(d[i]).Some?
  }

  function Values(d: string): (r: seq<int>)
    requires AllBase64(d)
    ensures |r| == |d| && SixBit(r)
  {
    seq(|d|, i requires 0 <= i < |d| => Base64Value(d[i]).value)
  }

  /**
   * atob (forgiving-base64 decode): strip ASCII whitespace; when the length
   * is a multiple of four drop one or two trailing '='; fail when the length
   * leaves remainder 1 modulo 4 or a character is not in the alphabet;
   * otherwise the bytes of the six-bit groups, as a string of code points
   * below 256.
   */
  function Atob(s: string): (r: Option<string>)
  {
    var d := RemoveWhitespace(s);
    var d1 := if |d| % 4 == 0 then StripPadding(d) else d;
    if |d1| % 4 == 1 then None
    else if !AllBase64(d1) then None
    else Some(BytesToString(SextetBytes(Values(d1))))
  }

  /** Stripping keeps every character but a final one or two '='. */
  lemma StripPaddingPrefix(d: string)
    ensures var d1 := StripPadding(d); |d1| <= |d| && d1 == d[..|d1|]
    ensures forall i :: |StripPadding(d)| <= i < |d| ==> d[i] == '='
  {
  }

  /** A character outside the alphabet other than '=', anywhere after whitespace removal, makes atob fail. */
  lemma AtobRejects(s: string, i: nat)
    requires i < |RemoveWhitespace(s)|
    requires RemoveWhitespace(s)[i] != '=' && Base64Value(RemoveWhitespace(s)[i]).None?
    ensures Atob(s).None?
  {
    var d := RemoveWhitespace(s);
    var d1 := if |d| % 4 == 0 then StripPadding(d) else d;
    StripPaddingPrefix(d);
    assert i < |d1| && d1[i] == d[i];
    assert !AllBase64(d1);
  }

  lemma GroupBytes(b0: Byte, b1: Byte, b2: Byte)
    ensures (b0 / 4) * 4 + ((b0 % 4) * 16 + b1 / 16) / 16 == b0
    ensures (((b0 % 4) * 16 + b1 / 16) % 16) * 16 + ((b1 % 16) * 4 + b2 / 64) / 4 == b1
    ensures (((b1 % 16) * 4 + b2 / 64) % 4) * 64 + b2 % 64 == b2
  {
    var x0, x1 := b0 % 4, b1 / 16;
    assert (x0 * 16 + x1) / 16 == x0 && (x0 * 16 + x1) % 16 == x1;
    var y0, y1 := b1 % 16, b2 / 64;
    assert (y0 * 4 + y1) / 4 == y0 && (y0 * 4 + y1) % 4 == y1;
  }

  /** A whole group decodes to its three bytes, whatever follows it. */
  lemma GroupDecodes(b0: Byte, b1: Byte, b2: Byte, w: seq<int>)
    requires SixBit(w) && |w| % 4 != 1
    ensures SixBit(Group(b0, b1, b2) + w) && |Group(b0, b1, b2) + w| % 4 != 1
    ensures SextetBytes(Group(b0, b1, b2) + w) == [b0, b1, b2] + SextetBytes(w)
  {
    var v := Group(b0, b1, b2) + w;
    GroupBytes(b0, b1, b2);
    assert v[4..] == w;
  }

  /** Decoding the six-bit groups of some bytes gives those bytes back. */
  lemma {:induction false} SextetsRoundTrip(b: seq<Byte>)
    ensures |Sextets(b)| % 4 != 1
    ensures SextetBytes(Sextets(b)) == b
  {
    if |b| == 1 {
      GroupBytes(b[0], 0, 0);
    } else if |b| == 2 {
      GroupBytes(b[0], b[1], 0);
    } else if |b| >= 3 {
      var w := Sextets(b[3..]);
      assert Sextets(b) == Group(b[0], b[1], b[2]) + w;
      SextetsRoundTrip(b[3..]);
      GroupDecodes(b[0], b[1], b[2], w);
      assert b == [b[0], b[1], b[2]] + b[3..];
    }
  }

  /** Stripping one or two '=' from behind text free of '=' gives the text back. */
  lemma StripPaddingOf(a: string, pad: string)
    requires forall i :: 0 <= i < |a| ==> a[i] != '='
    requires pad == "" || pad == "=" || pad == "=="
    ensures StripPadding(a + pad) == a
  {
    var e := a + pad;
    if pad == "==" {
      assert e[..|e| - 2] == a;
    } else if pad == "=" {
      assert e[..|e| - 1] == a;
    } else {
      assert e == a;
    }
  }

  /** atob undoes btoa on every string btoa accepts. */
  lemma Base64RoundTrip(s: string)
    requires Latin1(s)
    ensures Atob(Btoa(s).value) == Some(s)
  {
    var b := Latin1Bytes(s);
    var v := Sextets(b);
    var a := Alphabet(v);
    var e := Btoa(s).value;
    BtoaOutput(s);
    forall i | 0 <= i < |e| ensures !IsAsciiWhitespace(e[i]) {
      assert Base64OutputChar(e[i]);
    }
    RemoveWhitespaceNone(e);
    AlphabetValues(v);
    StripPaddingOf(a, Padding(|b|));
    assert Values(a) == v;
    SextetsRoundTrip(b);
    assert BytesToString(b) == s;
  }

  /** btoa cannot fail on the output of encodeURIComponent. */
  lemma EncodedIsLatin1(s: string)
    ensures Btoa(EncodeURIComponent(s)).Some?
  {
    EncodeURIComponentAscii(s);
  }
}
