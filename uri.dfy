/** `encodeURIComponent` as ECMAScript defines it, over strings of Unicode scalar values,
    with the decoder it is the inverse of. */
module Uri {
  import opened Wrappers

  type Byte = b: int | 0 <= b < 256

  /** The characters `encodeURIComponent` leaves as they are. */
  predicate Unreserved(c: char) {
    || ('A' <= c <= 'Z') || ('a' <= c <= 'z') || ('0' <= c <= '9')
    || c == '-' || c == '_' || c == '.' || c == '!' || c == '~' || c == '*' || c == '\'' || c == '(' || c == ')'
  }

  /** An upper-case hexadecimal digit, as the escapes are written. */
  predicate UpperHex(c: char) {
    ('0' <= c <= '9') || ('A' <= c <= 'F')
  }

  function HexDigit(n: int): (c: char)
    requires 0 <= n < 16
    ensures UpperHex(c)
  {
    if n < 10 then ('0' as int + n) as char else ('A' as int + n - 10) as char
  }

  /** The value of a hexadecimal digit of either case. */
  function HexValue(c: char): (r: Option<int>)
    ensures r.Some? ==> 0 <= r.value < 16
  {
    if '0' <= c <= '9' then Some(c as int - '0' as int)
    else if 'A' <= c <= 'F' then Some(c as int - 'A' as int + 10)
    else if 'a' <= c <= 'f' then Some(c as int - 'a' as int + 10)
    else None
  }

  /** The UTF-8 bytes of a scalar value. */
  function Utf8(c: char): (r: seq<Byte>)
    ensures 1 <= |r| <= 4
  {
    var cp := c as int;
    if cp < 0x80 then [cp]
    else if cp < 0x800 then [0xC0 + cp / 64, 0x80 + cp % 64]
    else if cp < 0x10000 then [0xE0 + cp / 4096, 0x80 + cp / 64 % 64, 0x80 + cp % 64]
    else [0xF0 + cp / 262144, 0x80 + cp / 4096 % 64, 0x80 + cp / 64 % 64, 0x80 + cp % 64]
  }

  /** Each byte written as `%` and two upper-case hexadecimal digits. */
  function PercentEncode(bytes: seq<Byte>): (r: string)
    ensures |r| == 3 * |bytes|
    decreases |bytes|
  {
    if bytes == [] then []
    else ['%', HexDigit(bytes[0] / 16), HexDigit(bytes[0] % 16)] + PercentEncode(bytes[1..])
  }

  function EncodeChar(c: char): string {
    if Unreserved(c) then [c] else PercentEncode(Utf8(c))
  }

  /** `encodeURIComponent(s)`. */
  function Encode(s: string): string
    decreases |s|
  {
    if s == [] then [] else EncodeChar(s[0]) + Encode(s[1..])
  }

  // ---------------------------------------------------------------------------
  // The decoder

  /** The bytes of the first `n` escapes of `s`, when they are `n` well-formed escapes. */
  function ReadBytes(s: string, n: nat): (r: Option<seq<Byte>>)
    ensures r.Some? ==> |r.value| == n && 3 * n <= |s|
    decreases n
  {
    if n == 0 then Some([])
    else if |s| < 3 || s[0] != '%' || HexValue(s[1]).None? || HexValue(s[2]).None? then None
    else
      var b := HexValue(s[1]).value * 16 + HexValue(s[2]).value;
      match ReadBytes(s[3..], n - 1)
      case None => None
      case Some(rest) => Some([b] + rest)
  }

  /** How many bytes a UTF-8 sequence starting with `b` has; 0 when `b` cannot start one. */
  function SequenceLength(b: Byte): nat {
    if b < 0x80 then 1
    else if 0xC0 <= b < 0xE0 then 2
    else if 0xE0 <= b < 0xF0 then 3
    else if 0xF0 <= b < 0xF8 then 4
    else 0
  }

  predicate Continuation(b: Byte) {
    0x80 <= b < 0xC0
  }

  /** The code point a sequence of the length its first byte announces stands for. */
  function CodePoint(bytes: seq<Byte>): int
    requires 1 <= |bytes| <= 4
  {
    var b: seq<int> := bytes;
    if |b| == 1 then b[0]
    else if |b| == 2 then (b[0] - 0xC0) * 64 + (b[1] - 0x80)
    else if |b| == 3 then (b[0] - 0xE0) * 4096 + (b[1] - 0x80) * 64 + (b[2] - 0x80)
    else (b[0] - 0xF0) * 262144 + (b[1] - 0x80) * 4096 + (b[2] - 0x80) * 64 + (b[3] - 0x80)
  }

  /** The smallest code point each length may encode; shorter forms are rejected. */
  function MinCodePoint(n: nat): int {
    if n <= 1 then 0 else if n == 2 then 0x80 else if n == 3 then 0x800 else 0x10000
  }

  predicate IsScalar(cp: int) {
    (0 <= cp < 0xD800) || (0xE000 <= cp <= 0x10FFFF)
  }

  /** A well-formed UTF-8 sequence for one scalar value. */
  predicate ValidSequence(bytes: seq<Byte>) {
    && 1 <= |bytes| <= 4
    && SequenceLength(bytes[0]) == |bytes|
    && (forall i :: 1 <= i < |bytes| ==> Continuation(bytes[i]))
    && MinCodePoint(|bytes|) <= CodePoint(bytes)
    && IsScalar(CodePoint(bytes))
  }

  /** `decodeURIComponent(s)`; `None` where it throws a `URIError`. */
  function Decode(s: string): Option<string>
    decreases |s|
  {
    if s == [] then Some([])
    else if s[0] != '%' then
      match Decode(s[1..])
      case None => None
      case Some(rest) => Some([s[0]] + rest)
    else
      match ReadBytes(s, 1)
      case None => None
      case Some(first) =>
        var n := SequenceLength(first[0]);
        if n == 0 then None
        else match ReadBytes(s, n)
          case None => None
          case Some(bytes) =>
            if !ValidSequence(bytes) then None
            else match Decode(s[3 * n..])
              case None => None
              case Some(rest) => Some([CodePoint(bytes) as char] + rest)
  }

  // ---------------------------------------------------------------------------
  // Properties

  lemma HexRoundTrip(n: int)
    requires 0 <= n < 16
    ensures HexValue(HexDigit(n)) == Some(n)
  {
  }

  /** Reading back `n` escapes written for `n` bytes gives the bytes, whatever follows. */
  lemma {:induction false} ReadPercent(bytes: seq<Byte>, rest: string)
    ensures ReadBytes(PercentEncode(bytes) + rest, |bytes|) == Some(bytes)
    decreases |bytes|
  {
    if bytes != [] {
      var b := bytes[0];
      var s := PercentEncode(bytes) + rest;
      HexRoundTrip(b / 16);
      HexRoundTrip(b % 16);
      assert s[1] == HexDigit(b / 16) && s[2] == HexDigit(b % 16);
      assert s[3..] == PercentEncode(bytes[1..]) + rest;
      ReadPercent(bytes[1..], rest);
      assert [b] + bytes[1..] == bytes;
    }
  }

  /** The UTF-8 bytes of a scalar value are a well-formed sequence for that value. */
  lemma Utf8Valid(c: char)
    ensures ValidSequence(Utf8(c))
    ensures CodePoint(Utf8(c)) == c as int
  {
    var cp := c as int;
    if cp < 0x80 {
    } else if cp < 0x800 {
      Utf8Two(cp);
    } else if cp < 0x10000 {
      Utf8Three(cp);
    } else {
      Utf8Four(cp);
    }
  }

  lemma Utf8Two(cp: int)
    requires 0x80 <= cp < 0x800
    ensures (0xC0 + cp / 64 - 0xC0) * 64 + (0x80 + cp % 64 - 0x80) == cp
    ensures 0xC0 <= 0xC0 + cp / 64 < 0xE0
  {
  }

  lemma Utf8Three(cp: int)
    requires 0x800 <= cp < 0x10000
    ensures (0xE0 + cp / 4096 - 0xE0) * 4096 + (0x80 + cp / 64 % 64 - 0x80) * 64 + (0x80 + cp % 64 - 0x80) == cp
    ensures 0xE0 <= 0xE0 + cp / 4096 < 0xF0
  {
    var q1, d := cp / 64, cp % 64;
    var a, c := q1 / 64, q1 % 64;
    assert cp == q1 * 64 + d;
    assert q1 == a * 64 + c;
    assert cp == a * 4096 + (c * 64 + d);
    assert cp / 4096 == a;
  }

  lemma Utf8Four(cp: int)
    requires 0x10000 <= cp <= 0x10FFFF
    ensures (0xF0 + cp / 262144 - 0xF0) * 262144 + (0x80 + cp / 4096 % 64 - 0x80) * 4096
      + (0x80 + cp / 64 % 64 - 0x80) * 64 + (0x80 + cp % 64 - 0x80) == cp
    ensures 0xF0 <= 0xF0 + cp / 262144 < 0xF8
  {
    var q1, d := cp / 64, cp % 64;
    var q2, c := q1 / 64, q1 % 64;
    var a, b := q2 / 64, q2 % 64;
    assert cp == q1 * 64 + d;
    assert q1 == q2 * 64 + c;
    assert q2 == a * 64 + b;
    assert cp == a * 262144 + (b * 4096 + c * 64 + d);
    assert cp / 4096 == q2;
    assert cp / 262144 == a;
  }

  /** Decoding the encoding of one character, followed by anything, yields the character
      followed by the decoding of the rest. */
  lemma DecodeOneChar(c: char, rest: string)
    ensures Decode(EncodeChar(c) + rest) ==
      match Decode(rest)
      case None => None
      case Some(t) => Some([c] + t)
  {
    var s := EncodeChar(c) + rest;
    if Unreserved(c) {
      assert s[0] == c && s[1..] == rest;
    } else {
      var bytes := Utf8(c);
      Utf8Valid(c);
      ReadPercent(bytes, rest);
      ReadPercent(bytes[..1], PercentEncode(bytes[1..]) + rest);
      assert PercentEncode(bytes) == PercentEncode(bytes[..1]) + PercentEncode(bytes[1..]) by {
        assert bytes[..1][1..] == [];
        assert bytes[..1] == [bytes[0]];
        assert bytes[..1][0] == bytes[0];
      }
      assert s[0] == '%';
      assert s[3 * |bytes|..] == rest;
    }
  }

  /** `decodeURIComponent(encodeURIComponent(s)) == s`. */
  lemma {:induction false} DecodeEncode(s: string)
    ensures Decode(Encode(s)) == Some(s)
    decreases |s|
  {
    if s != [] {
      DecodeEncode(s[1..]);
      DecodeOneChar(s[0], Encode(s[1..]));
      assert [s[0]] + s[1..] == s;
    }
  }

  /** The encoding is written only with unreserved characters, `%` and upper-case
      hexadecimal digits. */
  lemma {:induction false} EncodeAlphabet(s: string)
    ensures forall i :: 0 <= i < |Encode(s)| ==>
      Unreserved(Encode(s)[i]) || Encode(s)[i] == '%' || UpperHex(Encode(s)[i])
    decreases |s|
  {
    if s != [] {
      EncodeAlphabet(s[1..]);
      PercentAlphabet(Utf8(s[0]));
      var e := Encode(s);
      var head := EncodeChar(s[0]);
      assert e == head + Encode(s[1..]);
      forall i | 0 <= i < |e| ensures Unreserved(e[i]) || e[i] == '%' || UpperHex(e[i]) {
        if i >= |head| {
          assert e[i] == Encode(s[1..])[i - |head|];
        }
      }
    }
  }

  /** So an encoded value holds no `&`, `=`, `?`, `#` or space and stays one query
      parameter. */
  lemma EncodeStaysOneParameter(s: string)
    ensures '&' !in Encode(s) && '=' !in Encode(s) && '?' !in Encode(s) && '#' !in Encode(s) && ' ' !in Encode(s)
  {
    EncodeAlphabet(s);
  }

  lemma {:induction false} PercentAlphabet(bytes: seq<Byte>)
    ensures forall i :: 0 <= i < |PercentEncode(bytes)| ==>
      PercentEncode(bytes)[i] == '%' || UpperHex(PercentEncode(bytes)[i])
    decreases |bytes|
  {
    if bytes != [] {
      PercentAlphabet(bytes[1..]);
      var e := PercentEncode(bytes);
      forall i | 0 <= i < |e| ensures e[i] == '%' || UpperHex(e[i]) {
        if i >= 3 {
          assert e[i] == PercentEncode(bytes[1..])[i - 3];
        }
      }
    }
  }
}
