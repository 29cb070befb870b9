/**
 * Lower-case hexadecimal encoding of a byte string, as QByteArray::toHex
 * produces it: every byte becomes two characters, high nibble first.
 */
module Hex {

  /** One byte of a QByteArray. */
  type Byte = b: int | 0 <= b < 256

  /** An MD5 digest: exactly 16 bytes (RFC 1321, section 3.5). */
  type Digest = s: seq<Byte> | |s| == 16 witness seq(16, i => 0)

  predicate IsLowerHex(c: char) {
    '0' <= c <= '9' || 'a' <= c <= 'f'
  }

  predicate AllLowerHex(s: string) {
    forall i :: 0 <= i < |s| ==> IsLowerHex(s[i])
  }

  /** The character of one nibble. */
  function HexDigit(n: int): (c: char)
    requires 0 <= n < 16
    ensures IsLowerHex(c)
  {
    if n < 10 then ('0' as int + n) as char else ('a' as int + n - 10) as char
  }

  /** The nibble of one character; the inverse of HexDigit. */
  function DigitValue(c: char): (n: int)
    requires IsLowerHex(c)
    ensures 0 <= n < 16
    ensures HexDigit(n) == c
  {
    if c <= '9' then c as int - '0' as int else c as int - 'a' as int + 10
  }

  lemma DigitValueOfHexDigit(n: int)
    requires 0 <= n < 16
    ensures DigitValue(HexDigit(n)) == n
  {
  }

  /** QByteArray::toHex. */
  function ToHex(bytes: seq<Byte>): (r: string)
    ensures |r| == 2 * |bytes|
    ensures AllLowerHex(r)
  {
    if bytes == [] then ""
    else [HexDigit(bytes[0] / 16), HexDigit(bytes[0] % 16)] + ToHex(bytes[1..])
  }

  /** The decoding that ToHex is checked against. */
  function FromHex(s: string): (r: seq<Byte>)
    requires |s| % 2 == 0 && AllLowerHex(s)
    ensures 2 * |r| == |s|
  {
    if s == [] then []
    else [16 * DigitValue(s[0]) + DigitValue(s[1])] + FromHex(s[2..])
  }

  lemma {:induction false} FromHexToHex(bytes: seq<Byte>)
    ensures FromHex(ToHex(bytes)) == bytes
  {
    if bytes != [] {
      var b := bytes[0];
      var r := ToHex(bytes);
      assert r[2..] == ToHex(bytes[1..]);
      DigitValueOfHexDigit(b / 16);
      DigitValueOfHexDigit(b % 16);
      assert 16 * DigitValue(r[0]) + DigitValue(r[1]) == b;
      FromHexToHex(bytes[1..]);
    }
  }

  lemma {:induction false} ToHexFromHex(s: string)
    requires |s| % 2 == 0 && AllLowerHex(s)
    ensures ToHex(FromHex(s)) == s
  {
    if s != [] {
      var b := 16 * DigitValue(s[0]) + DigitValue(s[1]);
      assert b / 16 == DigitValue(s[0]) && b % 16 == DigitValue(s[1]);
      assert AllLowerHex(s[2..]) by {
        forall i | 0 <= i < |s| - 2 ensures IsLowerHex(s[2..][i]) {
          assert s[2..][i] == s[i + 2];
        }
      }
      ToHexFromHex(s[2..]);
      assert FromHex(s)[1..] == FromHex(s[2..]);
    }
  }

  /** Different byte strings never share a hex encoding. */
  lemma ToHexInjective(a: seq<Byte>, b: seq<Byte>)
    requires ToHex(a) == ToHex(b)
    ensures a == b
  {
    FromHexToHex(a);
    FromHexToHex(b);
  }
}
