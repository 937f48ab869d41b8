/** The hand-written percent codec of the deep-link module
    (`percent_encode`, `percent_decode_inner` in `src/nav/uri.rs`).
    Encoding works on the UTF-8 bytes of the input; decoding turns every
    `%XX` escape into the character whose code is the byte (Latin-1). */
module Percent {

  type byte = b: int | 0 <= b < 256

  // ---------------------------------------------------------------- UTF-8

  /** The UTF-8 encoding of one Unicode scalar value (`str::as_bytes`). */
  function Utf8Char(c: char): (bs: seq<byte>)
    ensures 1 <= |bs| <= 4
    ensures c as int < 128 ==> bs == [c as int]
    ensures c as int >= 128 ==> forall i :: 0 <= i < |bs| ==> bs[i] >= 128
  {
    var n := c as int;
    if n < 0x80 then [n]
    else if n < 0x800 then [0xC0 + n / 0x40, 0x80 + n % 0x40]
    else if n < 0x1_0000 then [0xE0 + n / 0x1000, 0x80 + (n / 0x40) % 0x40, 0x80 + n % 0x40]
    else [0xF0 + n / 0x4_0000, 0x80 + (n / 0x1000) % 0x40, 0x80 + (n / 0x40) % 0x40, 0x80 + n % 0x40]
  }

  function Utf8(s: string): (bs: seq<byte>)
    ensures |bs| >= |s|
  {
    if s == [] then [] else Utf8Char(s[0]) + Utf8(s[1..])
  }

  predicate IsAscii(s: string) {
    forall i :: 0 <= i < |s| ==> s[i] as int < 128
  }

  /** Each byte read back as the character with that code (`byte as u8 as char`). */
  function Latin1(bs: seq<byte>): (s: string)
    ensures |s| == |bs|
    ensures forall i :: 0 <= i < |bs| ==> s[i] as int == bs[i]
  {
    if bs == [] then [] else [bs[0] as char] + Latin1(bs[1..])
  }

  /** For ASCII text, UTF-8 then Latin-1 is the identity. */
  lemma {:induction false} Latin1Utf8Ascii(s: string)
    requires IsAscii(s)
    ensures Latin1(Utf8(s)) == s
  {
    if s != [] {
      assert IsAscii(s[1..]) by {
        forall i | 0 <= i < |s[1..]| ensures s[1..][i] as int < 128 { assert s[1..][i] == s[i + 1]; }
      }
      Latin1Utf8Ascii(s[1..]);
      assert Utf8(s) == [s[0] as int] + Utf8(s[1..]);
      assert Latin1(Utf8(s)) == [s[0]] + Latin1(Utf8(s[1..]));
    }
  }

  // ---------------------------------------------------------------- hex digits

  /** `char::to_digit(16)` succeeds. */
  predicate IsHexDigit(c: char) {
    ('0' <= c <= '9') || ('a' <= c <= 'f') || ('A' <= c <= 'F')
  }

  predicate IsUpperHexDigit(c: char) {
    ('0' <= c <= '9') || ('A' <= c <= 'F')
  }

  function HexValue(c: char): (v: nat)
    requires IsHexDigit(c)
    ensures v < 16
  {
    if '0' <= c <= '9' then c as int - '0' as int
    else if 'a' <= c <= 'f' then c as int - 'a' as int + 10
    else c as int - 'A' as int + 10
  }

  /** The upper-case hex digit the `02X` format writes. */
  function UpperHex(d: nat): (c: char)
    requires d < 16
    ensures IsUpperHexDigit(c) && IsHexDigit(c) && HexValue(c) == d
  {
    if d < 10 then (d + '0' as int) as char else (d - 10 + 'A' as int) as char
  }

  // ---------------------------------------------------------------- encoding

  /** The bytes `percent_encode` copies: `A-Z a-z 0-9 - . _ ~`. */
  predicate IsUnreserved(b: int) {
    ('A' as int <= b <= 'Z' as int) || ('a' as int <= b <= 'z' as int)
    || ('0' as int <= b <= '9' as int) || b == '-' as int || b == '.' as int
    || b == '_' as int || b == '~' as int
  }

  predicate IsUnreservedChar(c: char) {
    IsUnreserved(c as int)
  }

  function EncodeByte(b: byte): string {
    if IsUnreserved(b) then [b as char] else ['%', UpperHex(b / 16), UpperHex(b % 16)]
  }

  function EncodeBytes(bs: seq<byte>): string {
    if bs == [] then [] else EncodeByte(bs[0]) + EncodeBytes(bs[1..])
  }

  /** What `percent_encode(s)` returns. */
  function Encode(s: string): string {
    EncodeBytes(Utf8(s))
  }

  /** Text made only of unreserved characters is its own encoding. */
  lemma {:induction false} EncodeUnreserved(s: string)
    requires forall i :: 0 <= i < |s| ==> IsUnreservedChar(s[i])
    ensures Encode(s) == s
  {
    if s != [] {
      assert forall i :: 0 <= i < |s[1..]| ==> s[1..][i] == s[i + 1];
      EncodeUnreserved(s[1..]);
      var bs := Utf8(s);
      assert bs == [s[0] as int] + Utf8(s[1..]);
      assert bs[1..] == Utf8(s[1..]);
      assert EncodeBytes(bs) == EncodeByte(bs[0]) + EncodeBytes(bs[1..]);
    }
  }

  /** Text made only of unreserved characters and `%XX` escapes with
      upper-case hex digits. */
  predicate WellEncoded(s: string)
    decreases |s|
  {
    s == []
    || (IsUnreservedChar(s[0]) && WellEncoded(s[1..]))
    || (|s| >= 3 && s[0] == '%' && IsUpperHexDigit(s[1]) && IsUpperHexDigit(s[2]) && WellEncoded(s[3..]))
  }

  lemma {:induction false} WellEncodedAppend(a: string, b: string)
    requires WellEncoded(a) && WellEncoded(b)
    ensures WellEncoded(a + b)
    decreases |a|
  {
    var ab := a + b;
    if a == [] {
      assert ab == b;
    } else if IsUnreservedChar(a[0]) && WellEncoded(a[1..]) {
      WellEncodedAppend(a[1..], b);
      assert ab[0] == a[0] && ab[1..] == a[1..] + b;
    } else {
      WellEncodedAppend(a[3..], b);
      assert ab[3..] == a[3..] + b;
      assert ab[0] == '%' && ab[1] == a[1] && ab[2] == a[2];
    }
  }

  /** `percent_encode` output is well formed, whatever its input. */
  lemma {:induction false} EncodeBytesWellEncoded(bs: seq<byte>)
    ensures WellEncoded(EncodeBytes(bs))
  {
    if bs != [] {
      var e := EncodeByte(bs[0]);
      if IsUnreserved(bs[0]) {
        assert WellEncoded(e) by { assert e[1..] == []; }
      } else {
        assert WellEncoded(e) by { assert e[3..] == []; }
      }
      EncodeBytesWellEncoded(bs[1..]);
      WellEncodedAppend(e, EncodeBytes(bs[1..]));
    }
  }

  lemma EncodeWellEncoded(s: string)
    ensures WellEncoded(Encode(s))
  {
    EncodeBytesWellEncoded(Utf8(s));
  }

  /** Well-formed encoded text holds none of the URI delimiters the parser
      splits on, and no `+`. */
  lemma {:induction false} WellEncodedHasNoDelimiters(s: string)
    requires WellEncoded(s)
    ensures '/' !in s && '?' !in s && '&' !in s && '=' !in s && '+' !in s && ':' !in s
    decreases |s|
  {
    if s != [] {
      if IsUnreservedChar(s[0]) && WellEncoded(s[1..]) {
        WellEncodedHasNoDelimiters(s[1..]);
        assert s == [s[0]] + s[1..];
      } else {
        WellEncodedHasNoDelimiters(s[3..]);
        assert s == s[..3] + s[3..];
      }
    }
  }

  /** Every byte is encoded by at least one character. */
  lemma {:induction false} EncodeBytesNonEmpty(bs: seq<byte>)
    ensures |EncodeBytes(bs)| >= |bs|
  {
    if bs != [] { EncodeBytesNonEmpty(bs[1..]); }
  }

  lemma EncodeNonEmpty(s: string)
    requires s != []
    ensures Encode(s) != []
  {
    EncodeBytesNonEmpty(Utf8(s));
  }

  // ---------------------------------------------------------------- decoding

  /** What `percent_decode_inner(s, plus_as_space)` returns. A `%` followed by
      two hex digits becomes the character with that byte's code; a `%` that
      is not is copied with the (at most two) characters after it; `+` becomes
      a space only when `plusAsSpace`. */
  function Decode(s: string, plusAsSpace: bool): (r: string)
    ensures |r| <= |s|
    ensures s != [] ==> r != []
    decreases |s|
  {
    if s == [] then []
    else if s[0] == '%' then
      if |s| >= 3 && IsHexDigit(s[1]) && IsHexDigit(s[2]) then
        [(HexValue(s[1]) * 16 + HexValue(s[2])) as char] + Decode(s[3..], plusAsSpace)
      else
        var k := if |s| >= 3 then 3 else |s|;
        s[..k] + Decode(s[k..], plusAsSpace)
    else if plusAsSpace && s[0] == '+' then [' '] + Decode(s[1..], plusAsSpace)
    else [s[0]] + Decode(s[1..], plusAsSpace)
  }

  /** Decoding undoes encoding byte for byte: every byte comes back as the
      character with that code, in both decoding modes. */
  lemma {:induction false} DecodeEncodeBytes(bs: seq<byte>, plusAsSpace: bool)
    ensures Decode(EncodeBytes(bs), plusAsSpace) == Latin1(bs)
  {
    if bs != [] {
      var b := bs[0];
      var rest := EncodeBytes(bs[1..]);
      var s := EncodeByte(b) + rest;
      DecodeEncodeBytes(bs[1..], plusAsSpace);
      if IsUnreserved(b) {
        assert s[0] == b as char && s[1..] == rest;
      } else {
        assert s[0] == '%' && s[3..] == rest;
        assert HexValue(s[1]) * 16 + HexValue(s[2]) == b;
      }
    }
  }

  /** The round trip the deep links rely on: for ASCII text,
      `percent_decode(percent_encode(s)) == s`. */
  lemma DecodeEncodeAscii(s: string, plusAsSpace: bool)
    requires IsAscii(s)
    ensures Decode(Encode(s), plusAsSpace) == s
  {
    DecodeEncodeBytes(Utf8(s), plusAsSpace);
    Latin1Utf8Ascii(s);
  }

  /** Text without `%` (and without `+` when it counts) decodes to itself. */
  lemma {:induction false} DecodeLiteral(s: string, plusAsSpace: bool)
    requires '%' !in s && (plusAsSpace ==> '+' !in s)
    ensures Decode(s, plusAsSpace) == s
  {
    if s != [] {
      assert s[1..] == s[1..] && '%' !in s[1..];
      DecodeLiteral(s[1..], plusAsSpace);
    }
  }

  /** A malformed escape is copied literally: `%` with a non-hex character
      right after it keeps both, and the character after those. */
  lemma MalformedEscapeKept(c: char, d: char, rest: string, plusAsSpace: bool)
    requires !IsHexDigit(c)
    ensures Decode(['%', c, d] + rest, plusAsSpace) == ['%', c, d] + Decode(rest, plusAsSpace)
  {
    var s := ['%', c, d] + rest;
    assert s[..3] == ['%', c, d] && s[3..] == rest;
  }

  /** A trailing `%` is copied as it is. */
  lemma TrailingPercentKept(plusAsSpace: bool)
    ensures Decode("%", plusAsSpace) == "%"
  {
  }

  /** `+` means a space only in query parts. */
  lemma PlusDecoding(rest: string)
    ensures Decode(['+'] + rest, true) == [' '] + Decode(rest, true)
    ensures Decode(['+'] + rest, false) == ['+'] + Decode(rest, false)
  {
    assert (['+'] + rest)[1..] == rest;
  }

  // ---------------------------------------------------------------- the loops

  /** `percent_encode`: a loop over the UTF-8 bytes of the input. */
  method PercentEncode(input: string) returns (out: string)
    ensures out == Encode(input)
  {
    var bytes := Utf8(input);
    out := [];
    for i := 0 to |bytes|
      invariant out + EncodeBytes(bytes[i..]) == EncodeBytes(bytes)
    {
      var piece := EncodeOne(bytes[i]);
      EncodeBytesStep(bytes, i);
      out := out + piece;
    }
  }

  /** The characters one round of the encoding loop pushes for byte `b`. */
  method EncodeOne(b: byte) returns (piece: string)
    ensures piece == EncodeByte(b)
  {
    if IsUnreserved(b) {
      piece := [b as char];
    } else {
      var hi, lo := b / 16, b % 16;
      piece := ['%', UpperHex(hi), UpperHex(lo)];
    }
  }

  lemma EncodeBytesStep(bs: seq<byte>, i: nat)
    requires i < |bs|
    ensures EncodeBytes(bs[i..]) == EncodeByte(bs[i]) + EncodeBytes(bs[i + 1..])
  {
    assert bs[i..][1..] == bs[i + 1..];
  }

  /** `percent_decode_inner`: a loop over the characters of the input that
      reads up to two more characters after each `%`. */
  method PercentDecodeInner(input: string, plusAsSpace: bool) returns (out: string)
    ensures out == Decode(input, plusAsSpace)
  {
    out := [];
    var i := 0;
    while i < |input|
      invariant 0 <= i <= |input|
      invariant out + Decode(input[i..], plusAsSpace) == Decode(input, plusAsSpace)
    {
      var piece, next := DecodeNext(input, i, plusAsSpace);
      PushStep(out, piece, Decode(input[i..], plusAsSpace), Decode(input[next..], plusAsSpace));
      out, i := out + piece, next;
    }
    assert input[i..] == [];
  }

  /** Pushing what one round decodes keeps `out` ahead of what is left. */
  lemma PushStep(out: string, piece: string, rest: string, after: string)
    requires rest == piece + after
    ensures (out + piece) + after == out + rest
  {
  }

  /** One round of the decoding loop: the characters pushed for the
      character at `i` (and, after a `%`, the two that follow it). */
  method DecodeNext(input: string, i: nat, plusAsSpace: bool) returns (piece: string, next: nat)
    requires i < |input|
    ensures i < next <= |input|
    ensures Decode(input[i..], plusAsSpace) == piece + Decode(input[next..], plusAsSpace)
  {
    var ch := input[i];
    next := i + 1;
    if ch == '%' {
      var hasHi := next < |input|;
      var hi := if hasHi then input[next] else '%';
      if hasHi { next := next + 1; }
      var hasLo := next < |input|;
      var lo := if hasLo then input[next] else '%';
      if hasLo { next := next + 1; }
      if hasHi && hasLo && IsHexDigit(hi) && IsHexDigit(lo) {
        var code := HexValue(hi) * 16 + HexValue(lo);
        piece := [code as char];
        DecodeEscapeStep(input, i, plusAsSpace);
        return;
      }
      piece := ['%'];
      if hasHi { piece := piece + [hi]; }
      if hasLo { piece := piece + [lo]; }
      DecodeMalformedStep(input, i, plusAsSpace);
      assert piece == input[i..next];
    } else if plusAsSpace && ch == '+' {
      piece := [' '];
      DecodeCharStep(input, i, plusAsSpace);
    } else {
      piece := [ch];
      DecodeCharStep(input, i, plusAsSpace);
    }
  }

  lemma DecodeEscapeStep(s: string, i: nat, plusAsSpace: bool)
    requires i + 3 <= |s| && s[i] == '%' && IsHexDigit(s[i + 1]) && IsHexDigit(s[i + 2])
    ensures Decode(s[i..], plusAsSpace)
         == [(HexValue(s[i + 1]) * 16 + HexValue(s[i + 2])) as char] + Decode(s[i + 3..], plusAsSpace)
  {
    assert s[i..][3..] == s[i + 3..];
  }

  lemma DecodeMalformedStep(s: string, i: nat, plusAsSpace: bool)
    requires i < |s| && s[i] == '%'
    requires !(i + 3 <= |s| && IsHexDigit(s[i + 1]) && IsHexDigit(s[i + 2]))
    ensures var j := if i + 3 <= |s| then i + 3 else |s|;
      Decode(s[i..], plusAsSpace) == s[i..j] + Decode(s[j..], plusAsSpace)
  {
    var j := if i + 3 <= |s| then i + 3 else |s|;
    assert s[i..][j - i..] == s[j..];
    assert s[i..][..j - i] == s[i..j];
  }

  lemma DecodeCharStep(s: string, i: nat, plusAsSpace: bool)
    requires i < |s| && s[i] != '%'
    ensures Decode(s[i..], plusAsSpace)
         == (if plusAsSpace && s[i] == '+' then [' '] else [s[i]]) + Decode(s[i + 1..], plusAsSpace)
  {
    assert s[i..][1..] == s[i + 1..];
  }
}
