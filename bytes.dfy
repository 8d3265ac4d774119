/**
 * Byte strings: lower-case hexadecimal (Go's encoding/hex), fixed-width
 * big-endian integers, bitwise inversion and the lexicographic order of
 * bytes.Compare.  Go strings are modelled one char per byte.
 */
module Bytes {
  import opened Wrappers

  type byte = b: int | 0 <= b < 256

  /** The bytes of an ASCII/Latin-1 string literal such as "genesis". */
  function Ascii(s: string): (r: seq<byte>)
    requires forall i :: 0 <= i < |s| ==> s[i] as int < 256
    ensures |r| == |s|
    ensures forall i :: 0 <= i < |s| ==> r[i] == s[i] as int
  {
    seq(|s|, i requires 0 <= i < |s| => s[i] as int)
  }

  // ---------------------------------------------------------------- hex

  const HexDigits: string := "0123456789abcdef"

  function HexDigit(n: int): char
    requires 0 <= n < 16
  {
    HexDigits[n]
  }

  /** hex.EncodeToString: two lower-case digits per byte, high nibble first. */
  function HexEncode(b: seq<byte>): (s: string)
    ensures |s| == 2 * |b|
  {
    if b == [] then "" else [HexDigit(b[0] / 16), HexDigit(b[0] % 16)] + HexEncode(b[1..])
  }

  /** The value of one hex digit; both letter cases are accepted, as in Go. */
  function HexValue(c: char): (r: Option<int>)
    ensures r.Some? ==> 0 <= r.value < 16
  {
    if '0' <= c <= '9' then Some(c as int - '0' as int)
    else if 'a' <= c <= 'f' then Some(c as int - 'a' as int + 10)
    else if 'A' <= c <= 'F' then Some(c as int - 'A' as int + 10)
    else None
  }

  datatype HexError = InvalidByte(c: char) | OddLength

  /** Upper-case hex of a code point, at least four digits (the %U verb). */
  function UpperHex4(n: nat): (s: string)
    ensures |s| >= 4
  {
    var d := "0123456789ABCDEF";
    var digits := if n < 16 then [d[n]] else UpperHex(n);
    seq(if |digits| < 4 then 4 - |digits| else 0, _ => '0') + digits
  }

  function UpperHex(n: nat): (s: string)
    ensures |s| >= 1
  {
    var d := "0123456789ABCDEF";
    if n < 16 then [d[n]] else UpperHex(n / 16) + [d[n % 16]]
  }

  /**
   * strconv.IsPrint for a code point below 256: printable ASCII, and the
   * Latin-1 letters and signs except the soft hyphen.
   */
  predicate IsPrintByte(c: char) {
    (' ' <= c <= '~') || ('\U{A1}' <= c <= '\U{FF}' && c != '\U{AD}')
  }

  /** The error text of Go's encoding/hex errors; %#U quotes a printable character. */
  function HexErrorText(e: HexError): (s: string)
    ensures s != ""
  {
    match e
    case OddLength => "encoding/hex: odd length hex string"
    case InvalidByte(c) =>
      "encoding/hex: invalid byte: U+" + UpperHex4(c as int)
      + (if IsPrintByte(c) then " '" + [c] + "'" else "")
  }

  /** Below 256 the %U digits are two zeros and the byte's two hex digits, or three zeros and one. */
  lemma UpperHex4Byte(n: nat)
    requires n < 256
    ensures n < 16 ==> UpperHex4(n) == "000" + ["0123456789ABCDEF"[n]]
    ensures 16 <= n ==> UpperHex4(n) == "00" + ["0123456789ABCDEF"[n / 16], "0123456789ABCDEF"[n % 16]]
  {
    var d := "0123456789ABCDEF";
    if 16 <= n {
      assert UpperHex(n / 16) == [d[n / 16]];
      assert UpperHex(n) == [d[n / 16], d[n % 16]];
    }
  }

  /** An invalid Latin-1 letter is quoted after its code, a control byte is not. */
  lemma HexErrorTextVectors()
    ensures HexDecode("\U{E9}\U{E9}") == Err(InvalidByte('\U{E9}'))
    ensures HexErrorText(InvalidByte('\U{E9}')) == "encoding/hex: invalid byte: U+00E9 '\U{E9}'"
    ensures HexErrorText(InvalidByte('\U{AD}')) == "encoding/hex: invalid byte: U+00AD"
    ensures HexErrorText(InvalidByte('g')) == "encoding/hex: invalid byte: U+0067 'g'"
    ensures HexErrorText(InvalidByte('\n')) == "encoding/hex: invalid byte: U+000A"
  {
    UpperHex4Byte(0xE9);
    UpperHex4Byte(0xAD);
    UpperHex4Byte(0x67);
    UpperHex4Byte(0xA);
  }

  /**
   * hex.DecodeString.  Pairs are scanned left to right and the first bad
   * digit is reported; for an odd length the last digit is checked before
   * the length error is reported.
   */
  function HexDecode(s: string): (r: Result<seq<byte>, HexError>)
    ensures r.Ok? ==> 2 * |r.value| == |s|
    ensures |s| % 2 == 1 ==> r.Err?
  {
    if |s| == 0 then Ok([])
    else if |s| == 1 then (if HexValue(s[0]).None? then Err(InvalidByte(s[0])) else Err(OddLength))
    else if HexValue(s[0]).None? then Err(InvalidByte(s[0]))
    else if HexValue(s[1]).None? then Err(InvalidByte(s[1]))
    else
      match HexDecode(s[2..])
      case Err(e) => Err(e)
      case Ok(rest) => Ok([HexValue(s[0]).value * 16 + HexValue(s[1]).value] + rest)
  }

  lemma HexDigitValue(n: int)
    requires 0 <= n < 16
    ensures HexValue(HexDigit(n)) == Some(n)
  {
    assert HexDigits == "0123456789abcdef";
    if n < 10 {
      assert HexDigit(n) == ['0', '1', '2', '3', '4', '5', '6', '7', '8', '9'][n];
    } else {
      assert HexDigit(n) == ['a', 'b', 'c', 'd', 'e', 'f'][n - 10];
    }
  }

  /** Decoding a text that starts with two hex digits. */
  lemma HexDecodeCons(c0: char, c1: char, rest: string)
    requires HexValue(c0).Some? && HexValue(c1).Some? && HexDecode(rest).Ok?
    ensures HexDecode([c0, c1] + rest) == Ok([HexValue(c0).value * 16 + HexValue(c1).value] + HexDecode(rest).value)
  {
    var s := [c0, c1] + rest;
    assert s[0] == c0 && s[1] == c1 && s[2..] == rest;
  }

  /** Decoding what was encoded gives the bytes back. */
  lemma {:induction false} HexRoundTrip(b: seq<byte>)
    ensures HexDecode(HexEncode(b)) == Ok(b)
  {
    if b != [] {
      var hi, lo := b[0] / 16, b[0] % 16;
      HexDigitValue(hi);
      HexDigitValue(lo);
      HexRoundTrip(b[1..]);
      HexDecodeCons(HexDigit(hi), HexDigit(lo), HexEncode(b[1..]));
      assert hi * 16 + lo == b[0];
      assert b == [b[0]] + b[1..];
    }
  }

  /** Encoding is injective, so a hex text identifies its bytes. */
  lemma HexEncodeInjective(a: seq<byte>, b: seq<byte>)
    requires HexEncode(a) == HexEncode(b)
    ensures a == b
  {
    HexRoundTrip(a);
    HexRoundTrip(b);
  }

  // ------------------------------------------------------- big-endian

  function Pow256(n: nat): (p: nat)
    ensures p >= 1
  {
    if n == 0 then 1 else 256 * Pow256(n - 1)
  }

  /** The n-byte big-endian encoding of x (encoding/binary.BigEndian). */
  function BigEndian(x: nat, n: nat): (r: seq<byte>)
    requires x < Pow256(n)
    ensures |r| == n
  {
    if n == 0 then []
    else
      DivBound(x, n);
      BigEndian(x / 256, n - 1) + [x % 256]
  }

  lemma DivBound(x: nat, n: nat)
    requires n > 0 && x < Pow256(n)
    ensures x / 256 < Pow256(n - 1)
  {
  }

  /** The number a big-endian byte string denotes. */
  function BigEndianValue(s: seq<byte>): nat
  {
    if s == [] then 0 else 256 * BigEndianValue(s[..|s| - 1]) + s[|s| - 1]
  }

  lemma {:induction false} BigEndianRoundTrip(x: nat, n: nat)
    requires x < Pow256(n)
    ensures BigEndianValue(BigEndian(x, n)) == x
  {
    if n > 0 {
      DivBound(x, n);
      var r := BigEndian(x, n);
      assert r[..n - 1] == BigEndian(x / 256, n - 1);
      BigEndianRoundTrip(x / 256, n - 1);
    }
  }

  // ------------------------------------------------ inversion and order

  /** Every bit of every byte inverted (255 - b is ^b on a byte). */
  function Invert(s: seq<byte>): (r: seq<byte>)
    ensures |r| == |s|
    ensures forall i :: 0 <= i < |s| ==> r[i] == 255 - s[i]
  {
    seq(|s|, i requires 0 <= i < |s| => 255 - s[i])
  }

  lemma InvertInvolutive(s: seq<byte>)
    ensures Invert(Invert(s)) == s
  {
  }

  /** bytes.Compare(a, b) < 0: the lexicographic order on byte strings. */
  predicate LexLess(a: seq<byte>, b: seq<byte>)
    decreases |a|
  {
    if |a| == 0 then |b| > 0
    else if |b| == 0 then false
    else a[0] < b[0] || (a[0] == b[0] && LexLess(a[1..], b[1..]))
  }

  lemma {:induction false} LexLessPrefix(p: seq<byte>, a: seq<byte>, b: seq<byte>)
    ensures LexLess(p + a, p + b) <==> LexLess(a, b)
  {
    if p != [] {
      assert (p + a)[1..] == p[1..] + a;
      assert (p + b)[1..] == p[1..] + b;
      assert |p + a| > 0 && |p + b| > 0 && (p + a)[0] == (p + b)[0];
      assert LexLess(p + a, p + b) == LexLess(p[1..] + a, p[1..] + b);
      LexLessPrefix(p[1..], a, b);
    } else {
      assert p + a == a && p + b == b;
    }
  }

  lemma {:induction false} LexLessAppend(a: seq<byte>, b: seq<byte>, x: byte, y: byte)
    requires |a| == |b|
    requires LexLess(a, b) || (a == b && x < y)
    ensures LexLess(a + [x], b + [y])
  {
    if a != [] {
      assert (a + [x])[1..] == a[1..] + [x];
      assert (b + [y])[1..] == b[1..] + [y];
      if a[0] == b[0] {
        LexLessAppend(a[1..], b[1..], x, y);
      }
    }
  }

  /** A strict comparison decided within equal-length prefixes is kept whatever follows them. */
  lemma {:induction false} LexLessExtend(a: seq<byte>, b: seq<byte>, c: seq<byte>, d: seq<byte>)
    requires |a| == |b| && LexLess(a, b)
    ensures LexLess(a + c, b + d)
  {
    assert (a + c)[1..] == a[1..] + c;
    assert (b + d)[1..] == b[1..] + d;
    if a[0] == b[0] {
      LexLessExtend(a[1..], b[1..], c, d);
    }
  }

  lemma {:induction false} LexLessIrreflexive(a: seq<byte>)
    ensures !LexLess(a, a)
  {
    if a != [] {
      LexLessIrreflexive(a[1..]);
    }
  }

  /** Fixed-width big-endian encoding is order preserving. */
  lemma {:induction false} BigEndianMonotone(x: nat, y: nat, n: nat)
    requires x < y < Pow256(n)
    ensures LexLess(BigEndian(x, n), BigEndian(y, n))
  {
    DivBound(x, n);
    DivBound(y, n);
    if x / 256 < y / 256 {
      BigEndianMonotone(x / 256, y / 256, n - 1);
    } else {
      assert x / 256 == y / 256;
    }
    LexLessAppend(BigEndian(x / 256, n - 1), BigEndian(y / 256, n - 1), x % 256, y % 256);
  }
}
