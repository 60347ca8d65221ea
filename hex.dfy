/** Hexadecimal text of byte strings, as Go's encoding/hex writes and reads
    it: EncodeToString emits two lower-case digits per byte, DecodeString
    accepts either case and reports the first character that is not a digit
    before it reports an odd length. */
module Hex {
  import opened Constants

  type Byte = b: int | 0 <= b < 256

  const Digits: string := "0123456789abcdef"

  predicate IsHexChar(c: char) {
    ('0' <= c <= '9') || ('a' <= c <= 'f') || ('A' <= c <= 'F')
  }

  predicate IsLowerHexChar(c: char) {
    ('0' <= c <= '9') || ('a' <= c <= 'f')
  }

  predicate IsHexString(s: string) {
    |s| % 2 == 0 && forall i | 0 <= i < |s| :: IsHexChar(s[i])
  }

  /** The value of one hexadecimal digit. */
  function DigitValue(c: char): (v: int)
    requires IsHexChar(c)
    ensures 0 <= v < 16
    ensures IsLowerHexChar(c) ==> Digits[v] == c
  {
    if '0' <= c <= '9' then c as int - '0' as int
    else if 'a' <= c <= 'f' then c as int - 'a' as int + 10
    else c as int - 'A' as int + 10
  }

  lemma DigitValueOfDigit(v: int)
    requires 0 <= v < 16
    ensures IsLowerHexChar(Digits[v]) && DigitValue(Digits[v]) == v
  {
  }

  /** `hex.EncodeToString`: two lower-case digits per byte, high nibble first. */
  function Encode(b: seq<Byte>): (s: string)
    ensures |s| == 2 * |b|
    ensures forall i | 0 <= i < |s| :: IsLowerHexChar(s[i])
  {
    if b == [] then ""
    else [Digits[b[0] / 16], Digits[b[0] % 16]] + Encode(b[1..])
  }

  /** `hex.DecodeString`: scans the digit pairs in order; the first
      character that is not a digit is the error, and only a string whose
      characters are all digits can fail for its odd length. */
  function Decode(s: string): (r: Result<seq<Byte>>)
    ensures r.Ok? ==> 2 * |r.value| == |s|
  {
    if |s| == 0 then Ok([])
    else if !IsHexChar(s[0]) then Err(HexInvalidByte(s[0]))
    else if |s| == 1 then Err(HexOddLength)
    else if !IsHexChar(s[1]) then Err(HexInvalidByte(s[1]))
    else
      match Decode(s[2..])
      case Err(e) => Err(e)
      case Ok(rest) => Ok([DigitValue(s[0]) * 16 + DigitValue(s[1])] + rest)
  }

  /** Decoding succeeds exactly on the strings of hexadecimal digits of even
      length, and the odd-length error is reported only when every
      character is a digit. */
  lemma {:induction false} DecodeCharacterized(s: string)
    ensures Decode(s).Ok? <==> IsHexString(s)
    ensures Decode(s) == Err(HexOddLength) <==> |s| % 2 == 1 && forall i | 0 <= i < |s| :: IsHexChar(s[i])
  {
    if |s| >= 2 {
      DecodeCharacterized(s[2..]);
      assert forall i | 2 <= i < |s| :: s[i] == s[2..][i - 2];
    }
  }

  /** Decoding what was encoded gives back the bytes. */
  lemma {:induction false} DecodeEncode(b: seq<Byte>)
    ensures Decode(Encode(b)) == Ok(b)
  {
    if b != [] {
      var s := Encode(b);
      DecodeEncode(b[1..]);
      assert s[2..] == Encode(b[1..]);
      DigitValueOfDigit(b[0] / 16);
      DigitValueOfDigit(b[0] % 16);
      assert s[0] == Digits[b[0] / 16] && s[1] == Digits[b[0] % 16];
      assert IsHexChar(s[0]) && IsHexChar(s[1]) && |s| >= 2;
      assert Decode(s) == Ok([DigitValue(s[0]) * 16 + DigitValue(s[1])] + b[1..]);
      assert [b[0]] + b[1..] == b;
    }
  }

  /** Encoding is injective: equal text means equal bytes. */
  lemma EncodeInjective(a: seq<Byte>, b: seq<Byte>)
    ensures Encode(a) == Encode(b) ==> a == b
  {
    DecodeEncode(a);
    DecodeEncode(b);
  }
}
