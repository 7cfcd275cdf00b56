/**
 * Bytes and their hexadecimal text form, as the `hex` crate decodes it:
 * an even number of characters, each one of 0-9, a-f or A-F, two
 * characters per byte with the high nibble first.
 */
module Hex {

  import opened Wrappers

  type Byte = b: int | 0 <= b < 256

  predicate IsHexDigit(c: char) {
    '0' <= c <= '9' || 'a' <= c <= 'f' || 'A' <= c <= 'F'
  }

  predicate AllHexDigits(s: string) {
    forall i :: 0 <= i < |s| ==> IsHexDigit(s[i])
  }

  function HexValue(c: char): (v: nat)
    requires IsHexDigit(c)
    ensures v < 16
  {
    if '0' <= c <= '9' then c as int - '0' as int
    else if 'a' <= c <= 'f' then c as int - 'a' as int + 10
    else c as int - 'A' as int + 10
  }

  /** Lower-case hexadecimal digit for a nibble. */
  function HexChar(v: nat): (c: char)
    requires v < 16
    ensures IsHexDigit(c) && HexValue(c) == v
  {
    if v < 10 then ('0' as int + v) as char else ('a' as int + v - 10) as char
  }

  /** `hex::decode`: None for an odd length or a character that is not a hex digit. */
  function HexDecode(s: string): (r: Option<seq<Byte>>)
    ensures r.Some? <==> |s| % 2 == 0 && AllHexDigits(s)
    ensures r.Some? ==> |r.value| * 2 == |s|
  {
    if |s| % 2 != 0 then None else DecodePairs(s)
  }

  function DecodePairs(s: string): (r: Option<seq<Byte>>)
    requires |s| % 2 == 0
    ensures r.Some? <==> AllHexDigits(s)
    ensures r.Some? ==> |r.value| * 2 == |s|
    decreases |s|
  {
    if s == [] then Some([])
    else if !IsHexDigit(s[0]) || !IsHexDigit(s[1]) then None
    else
      match DecodePairs(s[2..])
      case None => None
      case Some(rest) => Some([HexValue(s[0]) * 16 + HexValue(s[1])] + rest)
  }

  /** Lower-case hexadecimal text of `bytes`, as GitHub writes a signature. */
  function HexEncode(bytes: seq<Byte>): (s: string)
    ensures |s| == 2 * |bytes|
    ensures AllHexDigits(s)
  {
    if bytes == [] then "" else [HexChar(bytes[0] / 16), HexChar(bytes[0] % 16)] + HexEncode(bytes[1..])
  }

  lemma {:induction false} DecodeEncode(bytes: seq<Byte>)
    ensures HexDecode(HexEncode(bytes)) == Some(bytes)
    decreases |bytes|
  {
    if bytes != [] {
      var s := HexEncode(bytes);
      assert s[2..] == HexEncode(bytes[1..]);
      DecodeEncode(bytes[1..]);
      assert s[0] == HexChar(bytes[0] / 16) && s[1] == HexChar(bytes[0] % 16);
      assert bytes == [bytes[0]] + bytes[1..];
    }
  }
}
