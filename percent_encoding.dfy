/** `encodeURIComponent`: every character outside the unescaped set becomes the `%XX`
    escapes of its UTF-8 bytes (percent-encoding, section 2.1 of RFC 3986), with the
    unescaped set of ECMAScript's encodeURIComponent. */
module PercentEncoding {

  type Byte = b: int | 0 <= b < 256

  /** Letters, digits and `- _ . ! ~ * ' ( )` are left as they are. */
  predicate IsUnescaped(c: char)
  {
    ('A' <= c <= 'Z') || ('a' <= c <= 'z') || ('0' <= c <= '9') ||
    c == '-' || c == '_' || c == '.' || c == '!' || c == '~' || c == '*' || c == '\'' || c == '(' || c == ')'
  }

  predicate IsHexDigit(c: char)
  {
    ('0' <= c <= '9') || ('A' <= c <= 'F')
  }

  function HexDigit(n: nat): (c: char)
    requires n < 16
    ensures IsHexDigit(c) && IsUnescaped(c)
  {
    if n < 10 then ('0' as int + n) as char else ('A' as int + n - 10) as char
  }

  function HexValue(c: char): (n: nat)
    requires IsHexDigit(c)
    ensures n < 16
  {
    if c <= '9' then c as int - '0' as int else c as int - 'A' as int + 10
  }

  lemma HexRoundTrip(n: nat)
    requires n < 16
    ensures HexValue(HexDigit(n)) == n
  {
  }

  /** The UTF-8 encoding of one Unicode scalar value. */
  function Utf8(c: char): (bs: seq<Byte>)
    ensures 1 <= |bs| <= 4
    ensures c as int < 0x80 ==> bs == [c as int]
  {
    var cp := c as int;
    if cp < 0x80 then [cp]
    else if cp < 0x800 then [0xC0 + cp / 64, 0x80 + cp % 64]
    else if cp < 0x10000 then [0xE0 + cp / 4096, 0x80 + (cp / 64) % 64, 0x80 + cp % 64]
    else [0xF0 + cp / 262144, 0x80 + (cp / 4096) % 64, 0x80 + (cp / 64) % 64, 0x80 + cp % 64]
  }

  function Utf8String(s: string): seq<Byte>
  {
    if s == [] then [] else Utf8(s[0]) + Utf8String(s[1..])
  }

  /** `%XX` for every byte, upper-case hexadecimal. */
  function Escapes(bs: seq<Byte>): (r: string)
    ensures |r| == 3 * |bs|
    ensures forall i :: 0 <= i < |r| ==> r[i] == '%' || IsUnescaped(r[i])
  {
    if bs == [] then ""
    else ['%', HexDigit(bs[0] / 16), HexDigit(bs[0] % 16)] + Escapes(bs[1..])
  }

  function EncodeChar(c: char): string
  {
    if IsUnescaped(c) then [c] else Escapes(Utf8(c))
  }

  /** `encodeURIComponent(s)`: the result holds nothing but unescaped characters and `%`,
      so in particular no `&`, `=` or `?`. */
  function Encode(s: string): (r: string)
    ensures forall i :: 0 <= i < |r| ==> r[i] == '%' || IsUnescaped(r[i])
  {
    if s == [] then "" else EncodeChar(s[0]) + Encode(s[1..])
  }

  /** Reads `%XX` escapes back as bytes and every other character as its code. */
  function PercentDecode(s: string): seq<int>
  {
    if s == [] then []
    else if s[0] == '%' && |s| >= 3 && IsHexDigit(s[1]) && IsHexDigit(s[2]) then
      [HexValue(s[1]) * 16 + HexValue(s[2])] + PercentDecode(s[3..])
    else [s[0] as int] + PercentDecode(s[1..])
  }

  /** A string of unescaped characters encodes to itself. */
  lemma {:induction false} EncodeUnescaped(s: string)
    requires forall i :: 0 <= i < |s| ==> IsUnescaped(s[i])
    ensures Encode(s) == s
  {
    if s != [] {
      EncodeUnescaped(s[1..]);
      assert [s[0]] + s[1..] == s;
    }
  }

  lemma {:induction false} DecodeEscapes(bs: seq<Byte>, rest: string)
    ensures PercentDecode(Escapes(bs) + rest) == bs + PercentDecode(rest)
  {
    if bs != [] {
      var b := bs[0];
      var s := Escapes(bs) + rest;
      HexRoundTrip(b / 16);
      HexRoundTrip(b % 16);
      assert s[0] == '%' && s[1] == HexDigit(b / 16) && s[2] == HexDigit(b % 16);
      assert s[3..] == Escapes(bs[1..]) + rest;
      assert HexValue(s[1]) * 16 + HexValue(s[2]) == b;
      assert PercentDecode(s) == [b] + PercentDecode(s[3..]);
      DecodeEscapes(bs[1..], rest);
      calc {
        PercentDecode(s);
        [b] + PercentDecode(s[3..]);
        [b] + PercentDecode(Escapes(bs[1..]) + rest);
        [b] + (bs[1..] + PercentDecode(rest));
        { assert [b] + bs[1..] == bs; }
        bs + PercentDecode(rest);
      }
    } else {
      assert Escapes(bs) + rest == rest;
    }
  }

  lemma DecodeEncodeChar(c: char, rest: string)
    ensures PercentDecode(EncodeChar(c) + rest) == Utf8(c) + PercentDecode(rest)
  {
    if IsUnescaped(c) {
      assert ([c] + rest)[1..] == rest;
    } else {
      DecodeEscapes(Utf8(c), rest);
    }
  }

  /** Decoding what `Encode` produced gives the UTF-8 bytes of the original string. */
  lemma {:induction false} DecodeEncode(s: string)
    ensures PercentDecode(Encode(s)) == Utf8String(s)
  {
    if s == [] {
    } else {
      DecodeEncodeChar(s[0], Encode(s[1..]));
      DecodeEncode(s[1..]);
    }
  }

  // ---------------------------------------------------------------------------------
  // Reading UTF-8 back: the encoding loses nothing

  /** The number of bytes of the UTF-8 sequence that starts with `lead`. */
  function SequenceLength(lead: Byte): nat
  {
    if lead < 0x80 then 1 else if lead < 0xE0 then 2 else if lead < 0xF0 then 3 else 4
  }

  /** The code point a UTF-8 sequence carries: the payload bits of the lead byte, then six
      bits from each continuation byte. */
  function SequenceValue(bs: seq<Byte>): int
    requires 1 <= |bs| <= 4
  {
    var b: seq<int> := bs;
    if |b| == 1 then b[0]
    else if |b| == 2 then (b[0] - 0xC0) * 64 + (b[1] - 0x80)
    else if |b| == 3 then (b[0] - 0xE0) * 4096 + (b[1] - 0x80) * 64 + (b[2] - 0x80)
    else (b[0] - 0xF0) * 262144 + (b[1] - 0x80) * 4096 + (b[2] - 0x80) * 64 + (b[3] - 0x80)
  }

  /** Decodes UTF-8 into code points; a sequence cut short ends the decoding. */
  function Utf8Decode(bs: seq<Byte>): seq<int>
    decreases |bs|
  {
    if bs == [] then []
    else
      var n := SequenceLength(bs[0]);
      if |bs| < n then [] else [SequenceValue(bs[..n])] + Utf8Decode(bs[n..])
  }

  function CodePoints(s: string): (r: seq<int>)
    ensures |r| == |s| && forall i :: 0 <= i < |s| ==> r[i] == s[i] as int
  {
    if s == [] then [] else [s[0] as int] + CodePoints(s[1..])
  }

  /** The lead byte of a character's encoding announces its length, and the sequence
      carries the character's code point. */
  lemma Utf8Char(c: char)
    ensures |Utf8(c)| == SequenceLength(Utf8(c)[0])
    ensures SequenceValue(Utf8(c)) == c as int
  {
    var cp := c as int;
    if cp < 0x80 {
    } else if cp < 0x800 {
      assert Utf8(c) == [0xC0 + cp / 64, 0x80 + cp % 64];
    } else if cp < 0x10000 {
      ThreeByteValue(cp);
      assert Utf8(c) == [0xE0 + cp / 4096, 0x80 + (cp / 64) % 64, 0x80 + cp % 64];
    } else {
      FourByteValue(cp);
      assert Utf8(c) == [0xF0 + cp / 262144, 0x80 + (cp / 4096) % 64, 0x80 + (cp / 64) % 64, 0x80 + cp % 64];
    }
  }

  lemma ThreeByteValue(cp: nat)
    ensures (cp / 4096) * 4096 + ((cp / 64) % 64) * 64 + cp % 64 == cp
  {
    assert cp / 64 == (cp / 4096) * 64 + (cp / 64) % 64;
  }

  lemma FourByteValue(cp: nat)
    ensures (cp / 262144) * 262144 + ((cp / 4096) % 64) * 4096 + ((cp / 64) % 64) * 64 + cp % 64 == cp
  {
    ThreeByteValue(cp);
    assert cp / 4096 == (cp / 262144) * 64 + (cp / 4096) % 64;
  }

  lemma Utf8DecodeChar(c: char, rest: seq<Byte>)
    ensures Utf8Decode(Utf8(c) + rest) == [c as int] + Utf8Decode(rest)
  {
    var bs := Utf8(c) + rest;
    Utf8Char(c);
    assert bs[0] == Utf8(c)[0];
    assert bs[..|Utf8(c)|] == Utf8(c);
    assert bs[|Utf8(c)|..] == rest;
  }

  /** Decoding the UTF-8 bytes of a string gives back its code points. */
  lemma {:induction false} Utf8RoundTrip(s: string)
    ensures Utf8Decode(Utf8String(s)) == CodePoints(s)
  {
    if s != [] {
      Utf8DecodeChar(s[0], Utf8String(s[1..]));
      Utf8RoundTrip(s[1..]);
    }
  }

  /** Different strings have different UTF-8 bytes. */
  lemma Utf8StringInjective(a: string, b: string)
    requires Utf8String(a) == Utf8String(b)
    ensures a == b
  {
    Utf8RoundTrip(a);
    Utf8RoundTrip(b);
    assert CodePoints(a) == CodePoints(b);
    forall i | 0 <= i < |a|
      ensures a[i] == b[i]
    {
      assert CodePoints(a)[i] == CodePoints(b)[i];
    }
  }

  /** `encodeURIComponent` loses no information: different strings encode differently. */
  lemma EncodeInjective(a: string, b: string)
    requires Encode(a) == Encode(b)
    ensures a == b
  {
    DecodeEncode(a);
    DecodeEncode(b);
    Utf8StringInjective(a, b);
  }
}
