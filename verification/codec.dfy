/**
 * The content encoding of a push: the solution text is turned into UTF-8
 * bytes (RFC 3629) and the bytes into base64 text (RFC 4648, section 4),
 * which is what the GitHub contents API expects. The decoders are the
 * receiving side; the round-trip lemmas say the file GitHub stores is
 * exactly the text that was pushed.
 */
module Codec {
  import opened Common

  type Byte = x: int | 0 <= x < 256

  // ---------------------------------------------------------------------------
  // UTF-8
  // ---------------------------------------------------------------------------

  predicate IsContinuation(b: Byte) {
    0x80 <= b < 0xC0
  }

  /** The UTF-8 bytes of one Unicode scalar value. */
  function EncodeChar(c: char): (bs: seq<Byte>)
    ensures 1 <= |bs| <= 4
    ensures |bs| == 1 <==> (c as int) < 0x80
    ensures forall i | 1 <= i < |bs| :: IsContinuation(bs[i])
  {
    var n := c as int;
    if n < 0x80 then [n]
    else if n < 0x800 then [0xC0 + n / 64, 0x80 + n % 64]
    else if n < 0x10000 then [0xE0 + n / 64 / 64, 0x80 + n / 64 % 64, 0x80 + n % 64]
    else [0xF0 + n / 64 / 64 / 64, 0x80 + n / 64 / 64 % 64, 0x80 + n / 64 % 64, 0x80 + n % 64]
  }

  /** `new TextEncoder().encode(s)`. */
  function Utf8Encode(s: string): (bs: seq<Byte>)
    ensures |s| <= |bs| <= 4 * |s|
  {
    if s == [] then [] else EncodeChar(s[0]) + Utf8Encode(s[1..])
  }

  /** Number of bytes announced by a lead byte, or 0 when the byte cannot start a sequence. */
  function SequenceLength(b: Byte): nat {
    if b < 0x80 then 1
    else if 0xC2 <= b < 0xE0 then 2
    else if 0xE0 <= b < 0xF0 then 3
    else if 0xF0 <= b < 0xF5 then 4
    else 0
  }

  /** A code point that is a Unicode scalar value and thus a `char`. */
  predicate IsScalar(n: int) {
    0 <= n < 0xD800 || 0xE000 <= n < 0x110000
  }

  /** The bits a byte carries beyond its marker bits. */
  function Payload(b: Byte, marker: int): int {
    b as int - marker
  }

  /** The scalar value at the start of `bs` and the number of bytes it takes, rejecting overlong and surrogate forms. */
  function DecodeOne(bs: seq<Byte>): (r: Option<(char, nat)>)
    requires bs != []
    ensures r.Some? ==> 1 <= r.value.1 <= |bs|
  {
    var k := SequenceLength(bs[0]);
    if k == 0 || |bs| < k || exists i | 1 <= i < k :: !IsContinuation(bs[i]) then None
    else
      var n: int :=
        if k == 1 then bs[0]
        else if k == 2 then Payload(bs[0], 0xC0) * 64 + Payload(bs[1], 0x80)
        else if k == 3 then Payload(bs[0], 0xE0) * 4096 + Payload(bs[1], 0x80) * 64 + Payload(bs[2], 0x80)
        else Payload(bs[0], 0xF0) * 262144 + Payload(bs[1], 0x80) * 4096 + Payload(bs[2], 0x80) * 64 + Payload(bs[3], 0x80);
      var least: int := if k == 1 then 0 else if k == 2 then 0x80 else if k == 3 then 0x800 else 0x10000;
      if n < least || !IsScalar(n) then None else Some((n as char, k))
  }

  /** Strict UTF-8 decoding: `None` for any ill-formed byte sequence. */
  function Utf8Decode(bs: seq<Byte>): (r: Option<string>)
    decreases |bs|
  {
    if bs == [] then Some([])
    else
      match DecodeOne(bs)
      case None => None
      case Some((c, k)) =>
        match Utf8Decode(bs[k..])
        case None => None
        case Some(rest) => Some([c] + rest)
  }

  lemma {:induction false} DecodeEncodedChar(c: char, tail: seq<Byte>)
    ensures DecodeOne(EncodeChar(c) + tail) == Some((c, |EncodeChar(c)|))
  {
    var n := c as int;
    var bs := EncodeChar(c) + tail;
    var m1, d0 := n / 64, n % 64;
    assert n == m1 * 64 + d0;
    if n < 0x80 {
    } else if n < 0x800 {
      assert bs[0] == 0xC0 + m1 && bs[1] == 0x80 + d0;
      assert SequenceLength(bs[0]) == 2;
    } else if n < 0x10000 {
      var m2, d1 := m1 / 64, m1 % 64;
      assert m1 == m2 * 64 + d1;
      assert bs[0] == 0xE0 + m2 && bs[1] == 0x80 + d1 && bs[2] == 0x80 + d0;
      assert SequenceLength(bs[0]) == 3;
      assert Payload(bs[0], 0xE0) * 4096 + Payload(bs[1], 0x80) * 64 + Payload(bs[2], 0x80) == n;
    } else {
      var m2, d1 := m1 / 64, m1 % 64;
      var m3, d2 := m2 / 64, m2 % 64;
      assert m1 == m2 * 64 + d1 && m2 == m3 * 64 + d2;
      assert bs[0] == 0xF0 + m3 && bs[1] == 0x80 + d2 && bs[2] == 0x80 + d1 && bs[3] == 0x80 + d0;
      assert SequenceLength(bs[0]) == 4;
      assert Payload(bs[0], 0xF0) * 262144 + Payload(bs[1], 0x80) * 4096 + Payload(bs[2], 0x80) * 64
        + Payload(bs[3], 0x80) == n;
    }
  }

  /** Decoding the UTF-8 encoding of a string gives the string back. */
  lemma {:induction false} Utf8RoundTrip(s: string)
    ensures Utf8Decode(Utf8Encode(s)) == Some(s)
  {
    if s != [] {
      var head := EncodeChar(s[0]);
      var tail := Utf8Encode(s[1..]);
      DecodeEncodedChar(s[0], tail);
      assert (head + tail)[|head|..] == tail;
      Utf8RoundTrip(s[1..]);
      assert [s[0]] + s[1..] == s;
    }
  }

  // ---------------------------------------------------------------------------
  // Base64
  // ---------------------------------------------------------------------------

  /** The base64 alphabet of RFC 4648, section 4 (table 1). */
  function Symbol(i: int): (c: char)
    requires 0 <= i < 64
  {
    if i < 26 then ('A' as int + i) as char
    else if i < 52 then ('a' as int + (i - 26)) as char
    else if i < 62 then ('0' as int + (i - 52)) as char
    else if i == 62 then '+'
    else '/'
  }

  /** The value of a base64 symbol; `None` for any other character, the pad `=` included. */
  function Value(c: char): (r: Option<int>)
    ensures r.Some? ==> 0 <= r.value < 64 && Symbol(r.value) == c
  {
    if 'A' <= c <= 'Z' then Some(c as int - 'A' as int)
    else if 'a' <= c <= 'z' then Some(c as int - 'a' as int + 26)
    else if '0' <= c <= '9' then Some(c as int - '0' as int + 52)
    else if c == '+' then Some(62)
    else if c == '/' then Some(63)
    else None
  }

  lemma ValueOfSymbol(i: int)
    requires 0 <= i < 64
    ensures Value(Symbol(i)) == Some(i)
  {
  }

  /** Three bytes as four symbols; one or two trailing bytes padded with `=`. */
  function EncodeGroup(g: seq<Byte>): (s: string)
    requires 1 <= |g| <= 3
    ensures |s| == 4
  {
    var b0 := g[0];
    var b1 := if |g| > 1 then g[1] else 0;
    var b2 := if |g| > 2 then g[2] else 0;
    var s0 := Symbol(b0 / 4);
    var s1 := Symbol((b0 % 4) * 16 + b1 / 16);
    var s2 := if |g| > 1 then Symbol((b1 % 16) * 4 + b2 / 64) else '=';
    var s3 := if |g| > 2 then Symbol(b2 % 64) else '=';
    [s0, s1, s2, s3]
  }

  /** `btoa` applied to the bytes as Latin-1 characters (`String.fromCharCode(...bytes)`). */
  function Base64Encode(bs: seq<Byte>): (s: string)
    ensures |s| % 4 == 0
    ensures |s| == 4 * ((|bs| + 2) / 3)
    decreases |bs|
  {
    if bs == [] then ""
    else if |bs| <= 3 then
      GroupCount(|bs|);
      EncodeGroup(bs)
    else
      var rest := Base64Encode(bs[3..]);
      GroupCount(|bs|);
      EncodeGroup(bs[..3]) + rest
  }

  /** A byte count takes one group more than the count three bytes shorter, the four-symbol text being whole groups. */
  lemma GroupCount(n: nat)
    requires n > 0
    ensures n <= 3 ==> (n + 2) / 3 == 1
    ensures n > 3 ==> (n + 2) / 3 == (n - 3 + 2) / 3 + 1
    ensures forall k: int :: (4 * k) % 4 == 0
  {
  }

  /** Four symbols back to one to three bytes; the pad may only end the text. */
  function DecodeGroup(s: string, last: bool): (r: Option<seq<Byte>>)
    requires |s| == 4
    ensures r.Some? ==> 1 <= |r.value| <= 3 && (!last ==> |r.value| == 3)
  {
    var v0, v1, v2, v3 := Value(s[0]), Value(s[1]), Value(s[2]), Value(s[3]);
    if v0.None? || v1.None? then None
    else
      var b0 := v0.value * 4 + v1.value / 16;
      if v2.Some? && v3.Some? then
        var b1 := (v1.value % 16) * 16 + v2.value / 4;
        var b2 := (v2.value % 4) * 64 + v3.value;
        Some([b0, b1, b2])
      else if last && v2.Some? && s[3] == '=' && v2.value % 4 == 0 then
        Some([b0, (v1.value % 16) * 16 + v2.value / 4])
      else if last && s[2] == '=' && s[3] == '=' && v1.value % 16 == 0 then
        Some([b0])
      else None
  }

  /** Base64 decoding as the receiving side does it; `None` for malformed text. */
  function Base64Decode(s: string): (r: Option<seq<Byte>>)
    decreases |s|
  {
    if s == [] then Some([])
    else if |s| < 4 then None
    else
      match DecodeGroup(s[..4], |s| == 4)
      case None => None
      case Some(g) =>
        match Base64Decode(s[4..])
        case None => None
        case Some(rest) => Some(g + rest)
  }

  lemma Split16(a: int, b: int)
    requires 0 <= b < 16
    ensures (a * 16 + b) / 16 == a && (a * 16 + b) % 16 == b
  {
  }

  lemma Split4(a: int, b: int)
    requires 0 <= b < 4
    ensures (a * 4 + b) / 4 == a && (a * 4 + b) % 4 == b
  {
  }

  /** The six-bit pieces of a group put back together give its bytes. */
  lemma {:induction false} SixBitPieces(b0: int, b1: int, b2: int)
    requires 0 <= b0 < 256 && 0 <= b1 < 256 && 0 <= b2 < 256
    ensures var i0, i1, i2, i3 := b0 / 4, (b0 % 4) * 16 + b1 / 16, (b1 % 16) * 4 + b2 / 64, b2 % 64;
      && 0 <= i0 < 64 && 0 <= i1 < 64 && 0 <= i2 < 64 && 0 <= i3 < 64
      && i0 * 4 + i1 / 16 == b0
      && (i1 % 16) * 16 + i2 / 4 == b1
      && (i2 % 4) * 64 + i3 == b2
      && (i1 % 16 == 0 <==> b1 / 16 == 0)
      && (i2 % 4 == 0 <==> b2 / 64 == 0)
  {
    Split16(b0 % 4, b1 / 16);
    Split4(b1 % 16, b2 / 64);
  }

  lemma {:induction false} DecodeEncodedSingle(b0: Byte)
    ensures DecodeGroup(EncodeGroup([b0]), true) == Some([b0])
  {
    SixBitPieces(b0, 0, 0);
    var i0, i1 := b0 / 4, (b0 % 4) * 16;
    ValueOfSymbol(i0);
    ValueOfSymbol(i1);
    assert EncodeGroup([b0]) == [Symbol(i0), Symbol(i1), '=', '='];
  }

  lemma {:induction false} DecodePaddedSymbols(i0: int, i1: int, i2: int)
    requires 0 <= i0 < 64 && 0 <= i1 < 64 && 0 <= i2 < 64 && i2 % 4 == 0
    requires 0 <= i0 * 4 + i1 / 16 < 256
    ensures DecodeGroup([Symbol(i0), Symbol(i1), Symbol(i2), '='], true)
      == Some([i0 * 4 + i1 / 16, (i1 % 16) * 16 + i2 / 4])
  {
    ValueOfSymbol(i0);
    ValueOfSymbol(i1);
    ValueOfSymbol(i2);
  }

  lemma {:induction false} DecodeEncodedPair(b0: Byte, b1: Byte)
    ensures DecodeGroup(EncodeGroup([b0, b1]), true) == Some([b0, b1])
  {
    var i0, i1, i2 := b0 / 4, (b0 % 4) * 16 + b1 / 16, (b1 % 16) * 4;
    SixBitPieces(b0, b1, 0);
    assert [i0 * 4 + i1 / 16, (i1 % 16) * 16 + i2 / 4] == [b0, b1];
    assert EncodeGroup([b0, b1]) == [Symbol(i0), Symbol(i1), Symbol(i2), '='];
    DecodePaddedSymbols(i0, i1, i2);
  }

  lemma {:induction false} DecodeSymbols(i0: int, i1: int, i2: int, i3: int, last: bool)
    requires 0 <= i0 < 64 && 0 <= i1 < 64 && 0 <= i2 < 64 && 0 <= i3 < 64
    requires 0 <= i0 * 4 + i1 / 16 < 256
    ensures DecodeGroup([Symbol(i0), Symbol(i1), Symbol(i2), Symbol(i3)], last)
      == Some([i0 * 4 + i1 / 16, (i1 % 16) * 16 + i2 / 4, (i2 % 4) * 64 + i3])
  {
    ValueOfSymbol(i0);
    ValueOfSymbol(i1);
    ValueOfSymbol(i2);
    ValueOfSymbol(i3);
  }

  lemma EncodeTriple(b0: Byte, b1: Byte, b2: Byte)
    ensures EncodeGroup([b0, b1, b2])
      == [Symbol(b0 / 4), Symbol((b0 % 4) * 16 + b1 / 16), Symbol((b1 % 16) * 4 + b2 / 64), Symbol(b2 % 64)]
  {
  }

  lemma {:induction false} DecodeEncodedTriple(b0: Byte, b1: Byte, b2: Byte, last: bool)
    ensures DecodeGroup(EncodeGroup([b0, b1, b2]), last) == Some([b0, b1, b2])
  {
    var i0, i1, i2, i3 := b0 / 4, (b0 % 4) * 16 + b1 / 16, (b1 % 16) * 4 + b2 / 64, b2 % 64;
    SixBitPieces(b0, b1, b2);
    assert [i0 * 4 + i1 / 16, (i1 % 16) * 16 + i2 / 4, (i2 % 4) * 64 + i3] == [b0, b1, b2];
    EncodeTriple(b0, b1, b2);
    DecodeSymbols(i0, i1, i2, i3, last);
  }

  /** Decoding an encoded group gives the group back; a short group must end the text. */
  lemma {:induction false} DecodeEncodedGroup(g: seq<Byte>, last: bool)
    requires 1 <= |g| <= 3
    requires |g| < 3 ==> last
    ensures DecodeGroup(EncodeGroup(g), last) == Some(g)
  {
    if |g| == 1 {
      assert g == [g[0]];
      DecodeEncodedSingle(g[0]);
    } else if |g| == 2 {
      assert g == [g[0], g[1]];
      DecodeEncodedPair(g[0], g[1]);
    } else {
      assert g == [g[0], g[1], g[2]];
      DecodeEncodedTriple(g[0], g[1], g[2], last);
    }
  }

  /** Decoding the base64 encoding of a byte sequence gives the bytes back. */
  lemma {:induction false} Base64RoundTrip(bs: seq<Byte>)
    ensures Base64Decode(Base64Encode(bs)) == Some(bs)
    decreases |bs|
  {
    if bs == [] {
    } else if |bs| <= 3 {
      var s := EncodeGroup(bs);
      DecodeEncodedGroup(bs, true);
      assert s[..4] == s && s[4..] == "";
      assert Base64Decode(s[4..]) == Some([]);
      assert bs + [] == bs;
    } else {
      var head := EncodeGroup(bs[..3]);
      var rest := Base64Encode(bs[3..]);
      var s := head + rest;
      assert |rest| >= 4;
      assert s[..4] == head && s[4..] == rest;
      DecodeEncodedGroup(bs[..3], |s| == 4);
      Base64RoundTrip(bs[3..]);
      assert bs[..3] + bs[3..] == bs;
    }
  }

  /** The `content` field of the request: base64 of the UTF-8 bytes of the solution. */
  function EncodeContent(code: string): (content: string)
    ensures |content| % 4 == 0
  {
    Base64Encode(Utf8Encode(code))
  }

  /** What GitHub stores for a pushed `content` field. */
  function DecodeContent(content: string): Option<string> {
    match Base64Decode(content)
    case None => None
    case Some(bs) => Utf8Decode(bs)
  }

  /** The file GitHub stores holds exactly the pushed text. */
  lemma ContentRoundTrip(code: string)
    ensures DecodeContent(EncodeContent(code)) == Some(code)
  {
    Base64RoundTrip(Utf8Encode(code));
    Utf8RoundTrip(code);
  }

  // ---------------------------------------------------------------------------
  // The leetcode-sync encoding: btoa(unescape(encodeURIComponent(code)))
  // ---------------------------------------------------------------------------

  /** The characters `encodeURIComponent` leaves as they are. */
  predicate Unreserved(c: char) {
    'A' <= c <= 'Z' || 'a' <= c <= 'z' || '0' <= c <= '9' || c in "-_.!~*'()"
  }

  function HexDigit(v: int): (c: char)
    requires 0 <= v < 16
  {
    if v < 10 then ('0' as int + v) as char else ('A' as int + v - 10) as char
  }

  function HexValue(c: char): (r: Option<int>)
    ensures r.Some? ==> 0 <= r.value < 16
  {
    if '0' <= c <= '9' then Some(c as int - '0' as int)
    else if 'A' <= c <= 'F' then Some(c as int - 'A' as int + 10)
    else if 'a' <= c <= 'f' then Some(c as int - 'a' as int + 10)
    else None
  }

  /** Every character code is below 128. */
  predicate IsAscii(s: string) {
    forall i | 0 <= i < |s| :: s[i] as int < 128
  }

  /** Every character code fits in a byte, as `btoa` demands. */
  predicate IsLatin1(s: string) {
    forall i | 0 <= i < |s| :: s[i] as int < 256
  }

  /** Each byte as `%` and two upper-case hexadecimal digits. */
  function Escape(bs: seq<Byte>): (s: string)
    ensures |s| == 3 * |bs|
    ensures IsAscii(s)
  {
    if bs == [] then [] else ['%', HexDigit(bs[0] / 16), HexDigit(bs[0] % 16)] + Escape(bs[1..])
  }

  /** `encodeURIComponent(s)`: unreserved characters kept, every other one as its escaped UTF-8 bytes. */
  function EncodeUriComponent(s: string): (r: string)
    ensures |r| >= |s|
    ensures IsAscii(r)
  {
    if s == [] then []
    else (if Unreserved(s[0]) then [s[0]] else Escape(EncodeChar(s[0]))) + EncodeUriComponent(s[1..])
  }

  /** `unescape(s)` for its two-digit escapes: `%` and two hexadecimal digits become that character code. */
  function Unescape(s: string): (r: string)
    ensures |r| <= |s|
    ensures IsLatin1(s) ==> IsLatin1(r)
  {
    if s == [] then []
    else if |s| >= 3 && s[0] == '%' && HexValue(s[1]).Some? && HexValue(s[2]).Some? then
      [(HexValue(s[1]).value * 16 + HexValue(s[2]).value) as char] + Unescape(s[3..])
    else [s[0]] + Unescape(s[1..])
  }

  /** Bytes read as character codes, as `String.fromCharCode(...bytes)` does. */
  function Latin1(bs: seq<Byte>): (s: string)
    ensures |s| == |bs| && forall i | 0 <= i < |bs| :: s[i] as int == bs[i]
  {
    seq(|bs|, i requires 0 <= i < |bs| => bs[i] as char)
  }

  /** The bytes `btoa` encodes; `None` (btoa throws) when a character code exceeds 255. */
  function Latin1Bytes(s: string): (r: Option<seq<Byte>>)
    ensures r.Some? ==> |r.value| == |s|
  {
    if forall i | 0 <= i < |s| :: s[i] as int < 256 then
      Some(seq(|s|, i requires 0 <= i < |s| => s[i] as int))
    else None
  }

  /** The `content` field of leetcode-sync/popup.js; `None` when `btoa` would throw. */
  function LegacyEncodeContent(code: string): (r: Option<string>)
    ensures r.Some? && |r.value| % 4 == 0
  {
    match Latin1Bytes(Unescape(EncodeUriComponent(code)))
    case None => None
    case Some(bs) => Some(Base64Encode(bs))
  }

  lemma HexRoundTrip(b: Byte)
    ensures HexValue(HexDigit(b / 16)) == Some(b / 16)
    ensures HexValue(HexDigit(b % 16)) == Some(b % 16)
    ensures (b / 16) * 16 + b % 16 == b
  {
  }

  lemma Latin1Concat(a: seq<Byte>, b: seq<Byte>)
    ensures Latin1(a + b) == Latin1(a) + Latin1(b)
  {
  }

  lemma Latin1Cons(bs: seq<Byte>)
    requires bs != []
    ensures Latin1(bs) == [bs[0] as char] + Latin1(bs[1..])
  {
    Latin1Concat([bs[0]], bs[1..]);
    assert [bs[0]] + bs[1..] == bs;
  }

  lemma EscapeCons(bs: seq<Byte>, t: string)
    requires bs != []
    ensures Escape(bs) + t == ['%', HexDigit(bs[0] / 16), HexDigit(bs[0] % 16)] + (Escape(bs[1..]) + t)
  {
  }

  lemma {:induction false} UnescapeEscape(bs: seq<Byte>, t: string)
    ensures Unescape(Escape(bs) + t) == Latin1(bs) + Unescape(t)
  {
    if bs == [] {
      assert Escape(bs) + t == t;
      assert Latin1(bs) + Unescape(t) == Unescape(t);
    } else {
      var b := bs[0];
      var tail := Escape(bs[1..]) + t;
      calc {
        Unescape(Escape(bs) + t);
        { EscapeCons(bs, t); }
        Unescape(['%', HexDigit(b / 16), HexDigit(b % 16)] + tail);
        { UnescapeOne(b, tail); }
        [b as char] + Unescape(tail);
        { UnescapeEscape(bs[1..], t); }
        [b as char] + (Latin1(bs[1..]) + Unescape(t));
        ([b as char] + Latin1(bs[1..])) + Unescape(t);
        { Latin1Cons(bs); }
        Latin1(bs) + Unescape(t);
      }
    }
  }

  /** One `%XX` escape decodes to the character whose code is the byte `XX`. */
  lemma UnescapeOne(b: Byte, tail: string)
    ensures Unescape(['%', HexDigit(b / 16), HexDigit(b % 16)] + tail) == [b as char] + Unescape(tail)
  {
    var u := ['%', HexDigit(b / 16), HexDigit(b % 16)] + tail;
    HexRoundTrip(b);
    assert u[3..] == tail;
  }

  /** A leading character other than `%` is kept as it is. */
  lemma UnescapeKeeps(c: char, rest: string)
    requires c != '%'
    ensures Unescape([c] + rest) == [c] + Unescape(rest)
  {
    assert ([c] + rest)[1..] == rest;
  }

  /** `unescape(encodeURIComponent(s))` is the string of the UTF-8 bytes of `s`. */
  lemma {:induction false} UnescapeEncodeUri(s: string)
    ensures Unescape(EncodeUriComponent(s)) == Latin1(Utf8Encode(s))
  {
    if s != [] {
      var c := s[0];
      var rest := EncodeUriComponent(s[1..]);
      UnescapeEncodeUri(s[1..]);
      Latin1Concat(EncodeChar(c), Utf8Encode(s[1..]));
      if Unreserved(c) {
        UnescapeKeeps(c, rest);
        assert EncodeChar(c) == [c as int];
        assert Latin1(EncodeChar(c)) == [c];
      } else {
        UnescapeEscape(EncodeChar(c), rest);
      }
    }
  }

  /** Both popups send the same `content` for every string: the two encodings agree. */
  lemma LegacyContentAgrees(code: string)
    ensures LegacyEncodeContent(code) == Some(EncodeContent(code))
  {
    UnescapeEncodeUri(code);
    var bs := Utf8Encode(code);
    assert Latin1Bytes(Latin1(bs)).Some?;
    assert Latin1Bytes(Latin1(bs)).value == bs;
  }
}
